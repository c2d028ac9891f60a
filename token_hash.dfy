/**
  The hash of a token vector (std::hash<vector<int32_t>> in
  cpp/include/tensorrt_llm/batch_manager/kvCacheManager.h) and the role it
  plays in the prefix tree: it only chooses the bucket of an
  unordered_map, while lookups compare the token vectors exactly.
*/
module TokenHash {
  import opened Wrappers

  /** A TokenIdType (int32_t) as its 32 bits; only equality and the hash look at it. */
  type TokenId = bv32

  /** A size_t: the machine word the hash is computed in. */
  type SizeT = bv64

  const SizeTLimit: int := 0x1_0000_0000_0000_0000

  /** The integer finaliser applied to each token, in uint32_t arithmetic. */
  function MixToken(x: TokenId): bv32
  {
    var y1 := ((x >> 16) ^ x) * 0x45d9f3b;
    var y2 := ((y1 >> 16) ^ y1) * 0x45d9f3b;
    (y2 >> 16) ^ y2
  }

  /**
    One round of the seed update.  `y + 0x9e3779b9` is a sum of two
    unsigned ints and wraps at 32 bits; only then is it widened and added
    to the shifted seeds in size_t arithmetic.
  */
  function Combine(seed: SizeT, x: TokenId): SizeT
  {
    var y := MixToken(x) + 0x9e3779b9;
    seed ^ ((y as SizeT) + (seed << 6) + (seed >> 2))
  }

  /** The seed after absorbing `tokens` from left to right. */
  function Absorb(seed: SizeT, tokens: seq<TokenId>): SizeT
    decreases |tokens|
  {
    if tokens == [] then seed else Absorb(Combine(seed, tokens[0]), tokens[1..])
  }

  /** The hash specified: the seed starts at the vector's length. */
  function TokenVecHash(tokens: seq<TokenId>): SizeT
    requires |tokens| < SizeTLimit
  {
    Absorb(|tokens| as SizeT, tokens)
  }

  /** The loop of hash<vector<int32_t>>::operator(). */
  method HashTokens(vec: seq<TokenId>) returns (seed: SizeT)
    requires |vec| < SizeTLimit
    ensures seed == TokenVecHash(vec)
  {
    seed := |vec| as SizeT;
    var i := 0;
    while i < |vec|
      invariant 0 <= i <= |vec|
      invariant Absorb(seed, vec[i..]) == TokenVecHash(vec)
    {
      assert vec[i..][1..] == vec[i + 1..];
      seed := Combine(seed, vec[i]);
      i := i + 1;
    }
  }

  /** Absorbing a concatenation absorbs its two parts in turn. */
  lemma {:induction false} AbsorbConcat(seed: SizeT, a: seq<TokenId>, b: seq<TokenId>)
    ensures Absorb(seed, a + b) == Absorb(Absorb(seed, a), b)
    decreases |a|
  {
    if a == [] {
      assert a + b == b;
    } else {
      assert (a + b)[0] == a[0];
      assert (a + b)[1..] == a[1..] + b;
      AbsorbConcat(Combine(seed, a[0]), a[1..], b);
    }
  }

  /** The empty vector hashes to 0, since the seed starts at the length. */
  lemma EmptyVectorHashesToZero()
    ensures TokenVecHash([]) == 0
  {
  }

  // ---------------------------------------------------------------------
  // NextBlockMap: an unordered_map keyed by token vectors
  // ---------------------------------------------------------------------

  type Key = seq<TokenId>

  /** A key that std::hash accepts (its size fits a size_t). */
  predicate Hashable(k: Key) { |k| < SizeTLimit }

  /** The bucket a key falls in: its hash modulo the bucket count. */
  function BucketOf(k: Key, numBuckets: nat): (r: nat)
    requires Hashable(k) && numBuckets > 0
    ensures r < numBuckets
  {
    (TokenVecHash(k) as int) % numBuckets
  }

  /** What a NextBlockMap maps a key to: the index of the next block. */
  type BlockRef = nat

  /** A chained hash table: each bucket lists (key, block) entries. */
  datatype HashMap = HashMap(buckets: seq<seq<(Key, BlockRef)>>)

  /** Every entry sits in the bucket of its key and keys are unique. */
  predicate WellFormed(m: HashMap)
  {
    |m.buckets| > 0
    && (forall i, j :: 0 <= i < |m.buckets| && 0 <= j < |m.buckets[i]| ==>
          Hashable(m.buckets[i][j].0) && BucketOf(m.buckets[i][j].0, |m.buckets|) == i)
    && (forall i, j1, j2 :: 0 <= i < |m.buckets| && 0 <= j1 < j2 < |m.buckets[i]| ==>
          m.buckets[i][j1].0 != m.buckets[i][j2].0)
  }

  /** The entry of `k` in one bucket, found by exact comparison of keys. */
  function FindInBucket(bucket: seq<(Key, BlockRef)>, k: Key): (r: Option<BlockRef>)
    ensures r.Some? <==> exists j :: 0 <= j < |bucket| && bucket[j].0 == k
    ensures r.Some? ==> exists j :: 0 <= j < |bucket| && bucket[j] == (k, r.value)
  {
    if bucket == [] then None
    else if bucket[0].0 == k then Some(bucket[0].1)
    else
      var r := FindInBucket(bucket[1..], k);
      assert forall j :: 0 <= j < |bucket[1..]| ==> bucket[1..][j] == bucket[j + 1];
      r
  }

  /** unordered_map::find: hash to the bucket, then compare exactly. */
  function Find(m: HashMap, k: Key): Option<BlockRef>
    requires WellFormed(m) && Hashable(k)
  {
    FindInBucket(m.buckets[BucketOf(k, |m.buckets|)], k)
  }

  /** Removes the entry of `k` from a bucket. */
  function EraseFromBucket(bucket: seq<(Key, BlockRef)>, k: Key): (r: seq<(Key, BlockRef)>)
    ensures forall e :: e in r <==> e in bucket && e.0 != k
    ensures |r| <= |bucket|
  {
    if bucket == [] then []
    else if bucket[0].0 == k then EraseFromBucket(bucket[1..], k)
    else [bucket[0]] + EraseFromBucket(bucket[1..], k)
  }

  /** unordered_map::operator[] assignment: the key's entry is replaced or added. */
  function Insert(m: HashMap, k: Key, v: BlockRef): (r: HashMap)
    requires WellFormed(m) && Hashable(k)
    ensures WellFormed(r)
  {
    var i := BucketOf(k, |m.buckets|);
    var nb := EraseFromBucket(m.buckets[i], k) + [(k, v)];
    InsertKeepsShape(m, k, v, i, nb);
    HashMap(m.buckets[i := nb])
  }

  /** unordered_map::erase by key. */
  function Erase(m: HashMap, k: Key): (r: HashMap)
    requires WellFormed(m) && Hashable(k)
    ensures WellFormed(r)
  {
    var i := BucketOf(k, |m.buckets|);
    var nb := EraseFromBucket(m.buckets[i], k);
    EraseKeepsShape(m, k, i, nb);
    HashMap(m.buckets[i := nb])
  }

  /** Keys in a bucket with unique keys, as a set of distinct entries. */
  predicate UniqueKeys(bucket: seq<(Key, BlockRef)>)
  {
    forall j1, j2 :: 0 <= j1 < j2 < |bucket| ==> bucket[j1].0 != bucket[j2].0
  }

  lemma {:induction false} EraseKeepsUnique(bucket: seq<(Key, BlockRef)>, k: Key)
    requires UniqueKeys(bucket)
    ensures UniqueKeys(EraseFromBucket(bucket, k))
  {
    if bucket != [] {
      assert UniqueKeys(bucket[1..]) by {
        forall j1, j2 | 0 <= j1 < j2 < |bucket[1..]|
          ensures bucket[1..][j1].0 != bucket[1..][j2].0
        {
          assert bucket[1..][j1] == bucket[j1 + 1] && bucket[1..][j2] == bucket[j2 + 1];
        }
      }
      EraseKeepsUnique(bucket[1..], k);
      if bucket[0].0 != k {
        var rest := EraseFromBucket(bucket[1..], k);
        forall e | e in rest ensures e.0 != bucket[0].0 {
          assert e in bucket[1..];
          var j :| 0 <= j < |bucket[1..]| && bucket[1..][j] == e;
          assert bucket[j + 1] == e;
        }
        var r := [bucket[0]] + rest;
        forall j1, j2 | 0 <= j1 < j2 < |r| ensures r[j1].0 != r[j2].0 {
          if j1 == 0 {
            assert r[j2] == rest[j2 - 1];
            assert rest[j2 - 1] in rest;
          } else {
            assert r[j1] == rest[j1 - 1] && r[j2] == rest[j2 - 1];
          }
        }
      }
    }
  }

  lemma BucketInvariantUnique(m: HashMap, i: int)
    requires WellFormed(m) && 0 <= i < |m.buckets|
    ensures UniqueKeys(m.buckets[i])
  {
  }

  /** Insertion keeps every entry in its own bucket and the keys unique. */
  lemma InsertKeepsShape(m: HashMap, k: Key, v: BlockRef, i: nat, nb: seq<(Key, BlockRef)>)
    requires WellFormed(m) && Hashable(k)
    requires i == BucketOf(k, |m.buckets|)
    requires nb == EraseFromBucket(m.buckets[i], k) + [(k, v)]
    ensures WellFormed(HashMap(m.buckets[i := nb]))
  {
    var rest := EraseFromBucket(m.buckets[i], k);
    BucketInvariantUnique(m, i);
    EraseKeepsUnique(m.buckets[i], k);
    forall j | 0 <= j < |nb| ensures Hashable(nb[j].0) && BucketOf(nb[j].0, |m.buckets|) == i {
      if j < |rest| {
        assert nb[j] in rest;
        assert nb[j] in m.buckets[i];
      }
    }
    forall j1, j2 | 0 <= j1 < j2 < |nb| ensures nb[j1].0 != nb[j2].0 {
      if j2 == |rest| {
        assert nb[j1] in rest;
      }
    }
  }

  /** Erasure keeps every entry in its own bucket and the keys unique. */
  lemma EraseKeepsShape(m: HashMap, k: Key, i: nat, nb: seq<(Key, BlockRef)>)
    requires WellFormed(m) && Hashable(k)
    requires i == BucketOf(k, |m.buckets|)
    requires nb == EraseFromBucket(m.buckets[i], k)
    ensures WellFormed(HashMap(m.buckets[i := nb]))
  {
    BucketInvariantUnique(m, i);
    EraseKeepsUnique(m.buckets[i], k);
    forall j | 0 <= j < |nb| ensures Hashable(nb[j].0) && BucketOf(nb[j].0, |m.buckets|) == i {
      assert nb[j] in m.buckets[i];
    }
  }

  lemma {:induction false} FindInBucketAppend(bucket: seq<(Key, BlockRef)>, k: Key, v: BlockRef, q: Key)
    requires forall e :: e in bucket ==> e.0 != k
    ensures FindInBucket(bucket + [(k, v)], q) == if q == k then Some(v) else FindInBucket(bucket, q)
  {
    if bucket == [] {
      assert bucket + [(k, v)] == [(k, v)];
    } else {
      assert (bucket + [(k, v)])[0] == bucket[0];
      assert (bucket + [(k, v)])[1..] == bucket[1..] + [(k, v)];
      assert forall e :: e in bucket[1..] ==> e in bucket;
      FindInBucketAppend(bucket[1..], k, v, q);
    }
  }

  lemma {:induction false} FindInBucketErase(bucket: seq<(Key, BlockRef)>, k: Key, q: Key)
    ensures FindInBucket(EraseFromBucket(bucket, k), q) == if q == k then None else FindInBucket(bucket, q)
  {
    if bucket != [] {
      FindInBucketErase(bucket[1..], k, q);
      if bucket[0].0 != k {
        var rest := EraseFromBucket(bucket[1..], k);
        assert ([bucket[0]] + rest)[0] == bucket[0];
        assert ([bucket[0]] + rest)[1..] == rest;
      }
    }
  }

  /** A key that was just stored is found with its value, whatever the other keys hash to. */
  lemma FindAfterInsert(m: HashMap, k: Key, v: BlockRef, q: Key)
    requires WellFormed(m) && Hashable(k) && Hashable(q)
    ensures Find(Insert(m, k, v), q) == if q == k then Some(v) else Find(m, q)
  {
    var i := BucketOf(k, |m.buckets|);
    var rest := EraseFromBucket(m.buckets[i], k);
    if BucketOf(q, |m.buckets|) == i {
      FindInBucketAppend(rest, k, v, q);
      FindInBucketErase(m.buckets[i], k, q);
    }
  }

  /** An erased key is no longer found; the other keys keep their values. */
  lemma FindAfterErase(m: HashMap, k: Key, q: Key)
    requires WellFormed(m) && Hashable(k) && Hashable(q)
    ensures Find(Erase(m, k), q) == if q == k then None else Find(m, q)
  {
    var i := BucketOf(k, |m.buckets|);
    if BucketOf(q, |m.buckets|) == i {
      FindInBucketErase(m.buckets[i], k, q);
    }
  }

  /** Two different keys that collide in one bucket are both kept and both found. */
  lemma CollidingKeysStayApart(m: HashMap, k1: Key, v1: BlockRef, k2: Key, v2: BlockRef)
    requires WellFormed(m) && Hashable(k1) && Hashable(k2) && k1 != k2
    ensures var m2 := Insert(Insert(m, k1, v1), k2, v2);
            Find(m2, k1) == Some(v1) && Find(m2, k2) == Some(v2)
  {
    var m1 := Insert(m, k1, v1);
    FindAfterInsert(m, k1, v1, k1);
    FindAfterInsert(m1, k2, v2, k1);
    FindAfterInsert(m1, k2, v2, k2);
  }
}
