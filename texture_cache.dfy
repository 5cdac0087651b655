/**
 * The LRU cache of generated biome textures: a map from cache key to entry,
 * a recency queue (front = most recently used, back = next victim) and the
 * request, eviction and memory statistics, with eviction until both the
 * texture-count and the byte budget hold.
 */
module TextureCache {
  import opened Common
  import opened Blocks
  import opened Lru
  import opened BiomeTextures

  /** Estimated bytes of one generated 128x128 RGBA texture. */
  const TEXTURE_BYTES: nat := 128 * 128 * 4

  /** A cached texture: its image handle, the noise settings it was made with, uses and size. */
  datatype TextureEntry = TextureEntry(textureHandle: int, config: NoiseSettings, accessCount: nat, sizeBytes: nat)

  /** The entry after one more use. */
  function Accessed(e: TextureEntry): (r: TextureEntry)
    ensures r.accessCount == e.accessCount + 1
    ensures r.textureHandle == e.textureHandle && r.config == e.config && r.sizeBytes == e.sizeBytes
  {
    e.(accessCount := e.accessCount + 1)
  }

  function MaxNat(a: nat, b: nat): nat {
    if a >= b then a else b
  }

  /** Total estimated bytes of the entries named by the queue. */
  ghost function QueueBytes<K>(q: seq<K>, m: map<K, TextureEntry>): nat
  {
    if |q| == 0 then 0 else QueueBytes(q[..|q| - 1], m) + EntryBytes(m, q[|q| - 1])
  }

  /** The size of a cached entry; a key with no entry contributes nothing. */
  ghost function EntryBytes<K>(m: map<K, TextureEntry>, k: K): nat {
    if k in m then m[k].sizeBytes else 0
  }

  lemma {:induction false} QueueBytesAppend<K(!new)>(a: seq<K>, b: seq<K>, m: map<K, TextureEntry>)
    requires forall k :: k in a ==> k in m
    requires forall k :: k in b ==> k in m
    ensures QueueBytes(a + b, m) == QueueBytes(a, m) + QueueBytes(b, m)
    decreases |b|
  {
    if |b| == 0 {
      assert a + b == a;
    } else {
      var b' := b[..|b| - 1];
      assert (a + b)[..|a + b| - 1] == a + b';
      QueueBytesAppend(a, b', m);
    }
  }

  /** The byte total only depends on the sizes of the queued entries. */
  lemma {:induction false} QueueBytesFrame<K(!new)>(q: seq<K>, m1: map<K, TextureEntry>, m2: map<K, TextureEntry>)
    requires forall k :: k in q ==> k in m1 && k in m2 && m1[k].sizeBytes == m2[k].sizeBytes
    ensures QueueBytes(q, m1) == QueueBytes(q, m2)
  {
    if |q| > 0 {
      QueueBytesFrame(q[..|q| - 1], m1, m2);
    }
  }

  /** Evicting the back key of a mirrored queue lowers the byte total by that entry's size. */
  lemma QueueBytesPopBack<K(!new)>(q: seq<K>, m: map<K, TextureEntry>)
    requires Mirrors(q, m) && |q| > 0
    ensures QueueBytes(q, m) >= m[q[|q| - 1]].sizeBytes
    ensures QueueBytes(PopBack(q), m - {q[|q| - 1]}) == QueueBytes(q, m) - m[q[|q| - 1]].sizeBytes
  {
    PopBackKeepsMirror(q, m);
    QueueBytesFrame(PopBack(q), m - {q[|q| - 1]}, m);
  }

  /** Inserting a fresh entry at the front adds its size to the byte total. */
  lemma QueueBytesPushFront<K(!new)>(q: seq<K>, m: map<K, TextureEntry>, k: K, e: TextureEntry)
    requires Mirrors(q, m) && k !in m
    ensures QueueBytes([k] + q, m[k := e]) == e.sizeBytes + QueueBytes(q, m)
  {
    var m' := m[k := e];
    QueueBytesAppend([k], q, m');
    assert [k][..0] == [];
    QueueBytesFrame(q, m', m);
  }

  /** The byte total does not depend on the order of the queue: moving one key to the front keeps it. */
  lemma QueueBytesMoveToFront<K(!new)>(l: seq<K>, k: K, r: seq<K>, m: map<K, TextureEntry>)
    requires forall x :: x in l + [k] + r ==> x in m
    ensures QueueBytes([k] + l + r, m) == QueueBytes(l + [k] + r, m)
  {
    assert [k][..0] == [];
    assert QueueBytes([k], m) == m[k].sizeBytes;
    QueueBytesAppend([k] + l, r, m);
    QueueBytesAppend([k], l, m);
    QueueBytesAppend(l + [k], r, m);
    QueueBytesAppend(l, [k], m);
  }

  /** Moving a cached key to the front and bumping its use count leaves the byte total unchanged. */
  lemma QueueBytesTouch<K(!new)>(q: seq<K>, m: map<K, TextureEntry>, k: K, e: TextureEntry)
    requires Mirrors(q, m) && k in m && e.sizeBytes == m[k].sizeBytes
    ensures QueueBytes(Touch(q, k), m[k := e]) == QueueBytes(q, m)
  {
    var i := IndexOf(q, k).value;
    var l, r := q[..i], q[i + 1..];
    var t := Touch(q, k);
    assert t == [k] + l + r by {
      RemoveFirstSplit(q, k);
    }
    assert QueueBytes(t, m[k := e]) == QueueBytes(t, m) by {
      TouchKeepsMirror(q, m, k);
      forall x | x in t
        ensures x in m[k := e] && x in m && m[k := e][x].sizeBytes == m[x].sizeBytes
      {
      }
      QueueBytesFrame(t, m[k := e], m);
    }
    assert QueueBytes([k] + l + r, m) == QueueBytes(q, m) by {
      SplitAt(q, i);
      QueueBytesMoveToFront(l, k, r, m);
    }
  }

  /** Queue and map agree, and the count and byte figures describe the entries. */
  ghost predicate Consistent<K(!new)>(q: seq<K>, m: map<K, TextureEntry>, count: nat, bytes: nat) {
    Mirrors(q, m) && count == |q| && bytes == QueueBytes(q, m)
  }

  lemma ConsistentPopBack<K(!new)>(q: seq<K>, m: map<K, TextureEntry>, count: nat, bytes: nat)
    requires Consistent(q, m, count, bytes) && |q| > 0
    ensures q[|q| - 1] in m && bytes >= m[q[|q| - 1]].sizeBytes
    ensures Consistent(PopBack(q), m - {q[|q| - 1]}, count - 1, bytes - m[q[|q| - 1]].sizeBytes)
  {
    PopBackKeepsMirror(q, m);
    QueueBytesPopBack(q, m);
  }

  lemma ConsistentPushFront<K(!new)>(q: seq<K>, m: map<K, TextureEntry>, count: nat, bytes: nat, k: K, e: TextureEntry)
    requires Consistent(q, m, count, bytes) && k !in m
    ensures Consistent([k] + q, m[k := e], count + 1, bytes + e.sizeBytes)
  {
    PushFrontKeepsMirror(q, m, k, e);
    QueueBytesPushFront(q, m, k, e);
  }

  lemma ConsistentTouch<K(!new)>(q: seq<K>, m: map<K, TextureEntry>, count: nat, bytes: nat, k: K)
    requires Consistent(q, m, count, bytes) && k in m
    ensures Consistent(Touch(q, k), m[k := Accessed(m[k])], count, bytes)
  {
    var e := Accessed(m[k]);
    TouchKeepsMirror(q, m, k);
    assert Mirrors(Touch(q, k), m[k := e]) by {
      assert m[k := e].Keys == m.Keys;
    }
    QueueBytesTouch(q, m, k, e);
  }

  /** A single cached entry accounts for all the bytes. */
  lemma SingleEntryBytes<K(!new)>(q: seq<K>, m: map<K, TextureEntry>, count: nat, bytes: nat)
    requires Consistent(q, m, count, bytes) && |q| == 1
    ensures bytes == m[q[0]].sizeBytes
  {
    assert q[..0] == [];
    assert QueueBytes(q, m) == QueueBytes(q[..0], m) + m[q[0]].sizeBytes;
  }

  /** After evicting from the back of `q0`, the byte figure is that of the kept prefix under the original entries. */
  lemma KeptBytes<K(!new)>(q0: seq<K>, m0: map<K, TextureEntry>, q: seq<K>, m: map<K, TextureEntry>, count: nat, bytes: nat)
    requires Consistent(q, m, count, bytes)
    requires |q| <= |q0| && q == q0[..|q|] && m == Restrict(m0, q)
    ensures bytes == QueueBytes(q0[..|q|], m0)
  {
    QueueBytesFrame(q, m, m0);
  }

  /**
   * A kept prefix whose bytes exceed the budget: the same prefix of `q0` does too, and
   * it is longer than the front entry when that entry alone fits the budget.
   */
  lemma OverBudgetPrefix<K(!new)>(q0: seq<K>, m0: map<K, TextureEntry>, q: seq<K>, m: map<K, TextureEntry>, count: nat, bytes: nat, budget: nat)
    requires Consistent(q, m, count, bytes) && bytes > budget && |q| > 0
    requires |q| <= |q0| && q == q0[..|q|] && m == Restrict(m0, q)
    ensures QueueBytes(q0[..|q|], m0) > budget
    ensures m0[q0[0]].sizeBytes <= budget ==> |q| > 1
  {
    KeptBytes(q0, m0, q, m, count, bytes);
    if |q| == 1 {
      SingleEntryBytes(q, m, count, bytes);
    }
  }

  /** A longer prefix of a queue never holds fewer bytes. */
  lemma {:induction false} PrefixBytesMonotone<K>(q: seq<K>, m: map<K, TextureEntry>, i: nat, j: nat)
    requires i <= j <= |q|
    ensures QueueBytes(q[..i], m) <= QueueBytes(q[..j], m)
    decreases j - i
  {
    if i < j {
      PrefixBytesMonotone(q, m, i, j - 1);
      assert q[..j][..j - 1] == q[..j - 1];
    }
  }

  /**
   * Stopping as soon as the prefix fits: when the prefix one longer than `n` exceeds the budget,
   * so does every longer prefix up to `cap`, so `n` is the longest prefix within the budget.
   */
  lemma LongestPrefixWithinBudget<K>(q: seq<K>, m: map<K, TextureEntry>, n: nat, cap: nat, budget: nat, l: nat)
    requires n <= cap <= |q|
    requires n < cap ==> QueueBytes(q[..n + 1], m) > budget
    ensures n < l <= cap ==> QueueBytes(q[..l], m) > budget
  {
    if n < l <= cap {
      PrefixBytesMonotone(q, m, n + 1, l);
    }
  }

  class BiomeTextureCache<K(==, !new)> {
    /** How a block type and its biome parameters become a cache key. */
    const keyOf: (BlockType, BiomeTextureParams) -> K

    var cache: map<K, TextureEntry>
    var lruQueue: seq<K>

    // Configuration.
    const maxTextures: nat
    const maxMemoryMb: nat
    const enableLruEviction: bool
    const enableSimilarityReuse: bool

    // Statistics.
    var totalRequests: nat
    var cacheHits: nat
    var cacheMisses: nat
    var texturesGenerated: nat
    var texturesEvicted: nat
    var memoryUsedBytes: nat
    var peakMemoryUsedBytes: nat
    var currentTextures: nat
    var peakTextures: nat

    /** The byte budget: `max_memory_mb` mebibytes. */
    function MaxMemoryBytes(): nat {
      maxMemoryMb * 1024 * 1024
    }

    /**
     * Queue and map hold the same keys, each queued once; the counters describe
     * the entries; peaks bound the current figures; every request is a hit or a miss.
     */
    ghost predicate Valid()
      reads this
    {
      Consistent(lruQueue, cache, currentTextures, memoryUsedBytes)
      && peakMemoryUsedBytes >= memoryUsedBytes
      && peakTextures >= currentTextures
      && cacheHits + cacheMisses == totalRequests
    }

    /**
     * Eviction from the back of `q0` stopped at the longest prefix within both limits: at most
     * `max_textures` entries, and when fewer than that remain, the entry evicted last was needed
     * to bring the prefix's bytes within budget.
     */
    ghost predicate StoppedInTime(q0: seq<K>, m0: map<K, TextureEntry>)
      reads this
    {
      var cap := if |q0| > maxTextures then maxTextures else |q0|;
      |lruQueue| <= cap && (|lruQueue| < cap ==> QueueBytes(q0[..|lruQueue| + 1], m0) > MaxMemoryBytes())
    }

    /** The statistics that eviction and clearing never touch. */
    ghost function Counters(): (nat, nat, nat, nat, nat, nat)
      reads this
    {
      (totalRequests, cacheHits, cacheMisses, texturesGenerated, peakMemoryUsedBytes, peakTextures)
    }

    /** What is left after evicting from the back of `q0`: a prefix of it, with the matching entries. */
    ghost predicate EvictedFromBack(q0: seq<K>, m0: map<K, TextureEntry>, evicted0: nat)
      reads this
    {
      |lruQueue| <= |q0| && lruQueue == q0[..|lruQueue|]
      && cache == Restrict(m0, lruQueue)
      && texturesEvicted == evicted0 + (|q0| - |lruQueue|)
    }

    constructor(keyOf: (BlockType, BiomeTextureParams) -> K, maxTextures: nat, maxMemoryMb: nat, enableLruEviction: bool, enableSimilarityReuse: bool)
      ensures Valid()
      ensures cache == map[] && lruQueue == [] && this.keyOf == keyOf
      ensures this.maxTextures == maxTextures && this.maxMemoryMb == maxMemoryMb
      ensures this.enableLruEviction == enableLruEviction && this.enableSimilarityReuse == enableSimilarityReuse
      ensures totalRequests == 0 && texturesGenerated == 0 && texturesEvicted == 0
      ensures memoryUsedBytes == 0 && peakMemoryUsedBytes == 0 && currentTextures == 0 && peakTextures == 0
    {
      this.keyOf := keyOf;
      this.maxTextures := maxTextures;
      this.maxMemoryMb := maxMemoryMb;
      this.enableLruEviction := enableLruEviction;
      this.enableSimilarityReuse := enableSimilarityReuse;
      cache := map[];
      lruQueue := [];
      totalRequests, cacheHits, cacheMisses := 0, 0, 0;
      texturesGenerated, texturesEvicted := 0, 0;
      memoryUsedBytes, peakMemoryUsedBytes := 0, 0;
      currentTextures, peakTextures := 0, 0;
    }

    /** Pops the back of the queue and drops its entry, updating memory and counts. */
    method EvictLruTexture()
      requires Valid()
      modifies this
      ensures Valid()
      ensures Counters() == old(Counters())
      ensures old(lruQueue) == [] ==> lruQueue == [] && cache == old(cache) && texturesEvicted == old(texturesEvicted)
      ensures old(lruQueue) != [] ==>
        var victim := old(lruQueue)[|old(lruQueue)| - 1];
        lruQueue == PopBack(old(lruQueue)) && cache == old(cache) - {victim}
        && memoryUsedBytes == old(memoryUsedBytes) - old(cache)[victim].sizeBytes
        && texturesEvicted == old(texturesEvicted) + 1
    {
      if |lruQueue| > 0 {
        var key := lruQueue[|lruQueue| - 1];
        ConsistentPopBack(lruQueue, cache, currentTextures, memoryUsedBytes);
        lruQueue := PopBack(lruQueue);
        if key in cache {
          var entry := cache[key];
          cache := cache - {key};
          memoryUsedBytes := memoryUsedBytes - entry.sizeBytes;
          currentTextures := currentTextures - 1;
          texturesEvicted := texturesEvicted + 1;
        }
      }
    }

    /**
     * With eviction enabled, evicts from the back until the texture count and then the
     * byte total are within budget. When the front entry alone fits both limits it survives.
     */
    method CheckAndEvict()
      requires Valid()
      modifies this
      ensures Valid()
      ensures Counters() == old(Counters())
      ensures EvictedFromBack(old(lruQueue), old(cache), old(texturesEvicted))
      ensures !enableLruEviction ==> lruQueue == old(lruQueue)
      ensures enableLruEviction ==> currentTextures <= maxTextures && memoryUsedBytes <= MaxMemoryBytes()
      ensures (enableLruEviction && maxTextures >= 1 && |old(lruQueue)| > 0
               && old(cache)[old(lruQueue)[0]].sizeBytes <= MaxMemoryBytes()) ==> |lruQueue| > 0
      ensures enableLruEviction ==> StoppedInTime(old(lruQueue), old(cache))
    {
      ghost var q0, m0, ev0 := lruQueue, cache, texturesEvicted;
      assert lruQueue == q0[..|lruQueue|];
      if !enableLruEviction {
        return;
      }
      EvictToCount(q0, m0, ev0);
      EvictToMemory(q0, m0, ev0);
    }

    /** The first eviction loop: evicts from the back while there are more than `max_textures` entries. */
    method EvictToCount(ghost q0: seq<K>, ghost m0: map<K, TextureEntry>, ghost ev0: nat)
      requires Valid() && NoDuplicates(q0) && EvictedFromBack(q0, m0, ev0)
      modifies this
      ensures Valid()
      ensures Counters() == old(Counters())
      ensures EvictedFromBack(q0, m0, ev0)
      ensures currentTextures <= maxTextures
      ensures maxTextures >= 1 && |old(lruQueue)| > 0 ==> |lruQueue| > 0
      ensures currentTextures == if old(currentTextures) > maxTextures then maxTextures else old(currentTextures)
    {
      while currentTextures > maxTextures && |lruQueue| > 0
        invariant Valid()
        invariant Counters() == old(Counters())
        invariant EvictedFromBack(q0, m0, ev0)
        invariant maxTextures >= 1 && |old(lruQueue)| > 0 ==> |lruQueue| > 0
        invariant old(currentTextures) > maxTextures ==> currentTextures >= maxTextures
        invariant old(currentTextures) <= maxTextures ==> currentTextures == old(currentTextures)
        decreases |lruQueue|
      {
        RestrictPopBack(m0, q0, |lruQueue|);
        EvictLruTexture();
      }
    }

    /** The second eviction loop: evicts from the back while the byte total exceeds the budget. */
    method EvictToMemory(ghost q0: seq<K>, ghost m0: map<K, TextureEntry>, ghost ev0: nat)
      requires Valid() && NoDuplicates(q0) && EvictedFromBack(q0, m0, ev0)
      modifies this
      ensures Valid()
      ensures Counters() == old(Counters())
      ensures EvictedFromBack(q0, m0, ev0)
      ensures memoryUsedBytes <= MaxMemoryBytes() && currentTextures <= old(currentTextures)
      ensures |old(lruQueue)| > 0 && m0[q0[0]].sizeBytes <= MaxMemoryBytes() ==> |lruQueue| > 0
      ensures |lruQueue| <= |old(lruQueue)|
      ensures |lruQueue| < |old(lruQueue)| ==> QueueBytes(q0[..|lruQueue| + 1], m0) > MaxMemoryBytes()
    {
      ghost var keepFront := |lruQueue| > 0 && m0[q0[0]].sizeBytes <= MaxMemoryBytes();
      while memoryUsedBytes > MaxMemoryBytes() && |lruQueue| > 0
        invariant Valid()
        invariant Counters() == old(Counters())
        invariant EvictedFromBack(q0, m0, ev0)
        invariant currentTextures <= old(currentTextures)
        invariant keepFront ==> |lruQueue| > 0
        invariant |lruQueue| <= |old(lruQueue)|
        invariant |lruQueue| < |old(lruQueue)| ==> QueueBytes(q0[..|lruQueue| + 1], m0) > MaxMemoryBytes()
        decreases |lruQueue|
      {
        EvictOverBudget(q0, m0, ev0);
      }
    }

    /** One round of the byte loop: the queue is over budget, so its back entry goes. */
    method EvictOverBudget(ghost q0: seq<K>, ghost m0: map<K, TextureEntry>, ghost ev0: nat)
      requires Valid() && NoDuplicates(q0) && EvictedFromBack(q0, m0, ev0)
      requires memoryUsedBytes > MaxMemoryBytes() && |lruQueue| > 0
      modifies this
      ensures Valid()
      ensures Counters() == old(Counters())
      ensures EvictedFromBack(q0, m0, ev0)
      ensures currentTextures < old(currentTextures)
      ensures |lruQueue| + 1 == |old(lruQueue)|
      ensures QueueBytes(q0[..|lruQueue| + 1], m0) > MaxMemoryBytes()
      ensures m0[q0[0]].sizeBytes <= MaxMemoryBytes() ==> |lruQueue| > 0
    {
      ghost var n := |lruQueue|;
      OverBudgetPrefix(q0, m0, lruQueue, cache, currentTextures, memoryUsedBytes, MaxMemoryBytes());
      RestrictPopBack(m0, q0, |lruQueue|);
      EvictLruTexture();
      assert |lruQueue| + 1 == n;
    }

    /** Inserts a new entry at the front of the queue, updates memory, counts and peaks, then evicts. */
    method AddToCache(key: K, textureHandle: int, config: NoiseSettings, sizeBytes: nat)
      requires Valid() && key !in cache
      modifies this
      ensures Valid()
      ensures totalRequests == old(totalRequests) && cacheHits == old(cacheHits)
      ensures cacheMisses == old(cacheMisses) && texturesGenerated == old(texturesGenerated)
      ensures peakMemoryUsedBytes == MaxNat(old(peakMemoryUsedBytes), old(memoryUsedBytes) + sizeBytes)
      ensures peakTextures == MaxNat(old(peakTextures), old(currentTextures) + 1)
      ensures EvictedFromBack([key] + old(lruQueue), old(cache)[key := TextureEntry(textureHandle, config, 1, sizeBytes)],
                              old(texturesEvicted))
      ensures !enableLruEviction ==> lruQueue == [key] + old(lruQueue)
      ensures enableLruEviction ==> currentTextures <= maxTextures && memoryUsedBytes <= MaxMemoryBytes()
      ensures enableLruEviction && maxTextures >= 1 && sizeBytes <= MaxMemoryBytes() ==> key in cache
      ensures enableLruEviction ==>
        StoppedInTime([key] + old(lruQueue), old(cache)[key := TextureEntry(textureHandle, config, 1, sizeBytes)])
    {
      var entry := TextureEntry(textureHandle, config, 1, sizeBytes);
      ConsistentPushFront(lruQueue, cache, currentTextures, memoryUsedBytes, key, entry);
      cache := cache[key := entry];
      lruQueue := [key] + lruQueue;
      memoryUsedBytes := memoryUsedBytes + sizeBytes;
      peakMemoryUsedBytes := MaxNat(peakMemoryUsedBytes, memoryUsedBytes);
      currentTextures := currentTextures + 1;
      peakTextures := MaxNat(peakTextures, currentTextures);
      CheckAndEvict();
    }

    /** Moves a cached key to the front of the queue and counts one more access. */
    method UpdateLru(key: K)
      requires Valid() && key in cache
      modifies this
      ensures Valid()
      ensures Counters() == old(Counters())
      ensures lruQueue == Touch(old(lruQueue), key)
      ensures cache == old(cache)[key := Accessed(old(cache)[key])]
      ensures memoryUsedBytes == old(memoryUsedBytes) && texturesEvicted == old(texturesEvicted)
    {
      ConsistentTouch(lruQueue, cache, currentTextures, memoryUsedBytes, key);
      lruQueue := Touch(lruQueue, key);
      cache := cache[key := Accessed(cache[key])];
    }

    /**
     * Looks the texture up under its cache key. A hit touches it; otherwise a similar cached
     * texture (the outcome of the similarity search, passed in) is reused and counted as a hit;
     * otherwise a texture with handle `freshHandle` is generated and inserted.
     */
    method GetOrGenerate(b: BlockType, params: BiomeTextureParams, similar: Option<K>, freshHandle: int)
      returns (handle: int)
      requires Valid()
      requires similar.Some? ==> similar.value in cache
      modifies this
      ensures Valid()
      ensures totalRequests == old(totalRequests) + 1
      ensures var key := keyOf(b, params);
        key in old(cache) ==>
          handle == old(cache)[key].textureHandle && cacheHits == old(cacheHits) + 1
          && lruQueue == Touch(old(lruQueue), key) && cache == old(cache)[key := Accessed(old(cache)[key])]
      ensures var key := keyOf(b, params);
        key !in old(cache) && enableSimilarityReuse && similar.Some? ==>
          handle == old(cache)[similar.value].textureHandle && cacheHits == old(cacheHits) + 1
          && lruQueue == Touch(old(lruQueue), similar.value)
          && cache == old(cache)[similar.value := Accessed(old(cache)[similar.value])]
      ensures var key := keyOf(b, params);
        var cfg := ForBlockType(b);
        key !in old(cache) && !(enableSimilarityReuse && similar.Some?) ==>
          handle == freshHandle && cacheMisses == old(cacheMisses) + 1
          && texturesGenerated == old(texturesGenerated) + 1
          && EvictedFromBack([key] + old(lruQueue),
               old(cache)[key := TextureEntry(freshHandle, ApplyBiomeParameters(cfg.baseConfig, params, cfg), 1, TEXTURE_BYTES)],
               old(texturesEvicted))
          && (enableLruEviction && maxTextures >= 1 && TEXTURE_BYTES <= MaxMemoryBytes() ==> key in cache)
          && (enableLruEviction ==> StoppedInTime([key] + old(lruQueue),
               old(cache)[key := TextureEntry(freshHandle, ApplyBiomeParameters(cfg.baseConfig, params, cfg), 1, TEXTURE_BYTES)]))
    {
      totalRequests := totalRequests + 1;
      var key := keyOf(b, params);
      if key in cache {
        cacheHits := cacheHits + 1;
        UpdateLru(key);
        return cache[key].textureHandle;
      }
      cacheMisses := cacheMisses + 1;
      if enableSimilarityReuse && similar.Some? {
        cacheHits := cacheHits + 1;
        cacheMisses := cacheMisses - 1;
        UpdateLru(similar.value);
        return cache[similar.value].textureHandle;
      }
      handle := Generate(key, b, params, freshHandle);
    }

    /** The miss path: builds the texture's noise settings, inserts it and counts the generation. */
    method Generate(key: K, b: BlockType, params: BiomeTextureParams, freshHandle: int) returns (handle: int)
      requires Valid() && key !in cache
      modifies this
      ensures Valid()
      ensures totalRequests == old(totalRequests) && cacheHits == old(cacheHits) && cacheMisses == old(cacheMisses)
      ensures var cfg := ForBlockType(b);
        handle == freshHandle && texturesGenerated == old(texturesGenerated) + 1
        && EvictedFromBack([key] + old(lruQueue),
             old(cache)[key := TextureEntry(freshHandle, ApplyBiomeParameters(cfg.baseConfig, params, cfg), 1, TEXTURE_BYTES)],
             old(texturesEvicted))
        && (enableLruEviction && maxTextures >= 1 && TEXTURE_BYTES <= MaxMemoryBytes() ==> key in cache)
        && (enableLruEviction ==> StoppedInTime([key] + old(lruQueue),
             old(cache)[key := TextureEntry(freshHandle, ApplyBiomeParameters(cfg.baseConfig, params, cfg), 1, TEXTURE_BYTES)]))
    {
      var cfg := ForBlockType(b);
      var noiseConfig := ApplyBiomeParameters(cfg.baseConfig, params, cfg);
      AddToCache(key, freshHandle, noiseConfig, TEXTURE_BYTES);
      texturesGenerated := texturesGenerated + 1;
      return freshHandle;
    }

    /** Empties map and queue and zeroes the current memory and count; peaks and totals stay. */
    method Clear()
      requires Valid()
      modifies this
      ensures Valid()
      ensures cache == map[] && lruQueue == [] && memoryUsedBytes == 0 && currentTextures == 0
      ensures Counters() == old(Counters()) && texturesEvicted == old(texturesEvicted)
    {
      cache := map[];
      lruQueue := [];
      memoryUsedBytes := 0;
      currentTextures := 0;
    }
  }

  /** `current_textures` is the number of cached entries. */
  lemma CurrentCountsEntries<K(!new)>(c: BiomeTextureCache<K>)
    requires c.Valid()
    ensures c.currentTextures == |c.cache|
  {
    MirrorCount(c.lruQueue, c.cache);
  }

  /**
   * The cache as the game creates it: keys from `TextureCacheKey`, and the default
   * configuration of 1024 textures, 1024 MiB, eviction and similarity reuse on.
   */
  method NewDefaultCache() returns (c: BiomeTextureCache<string>)
    ensures fresh(c) && c.Valid()
    ensures c.keyOf == TextureCacheKey
    ensures c.cache == map[] && c.lruQueue == []
    ensures c.maxTextures == 1024 && c.maxMemoryMb == 1024 && c.enableLruEviction && c.enableSimilarityReuse
  {
    c := new BiomeTextureCache(TextureCacheKey, 1024, 1024, true, true);
  }
}
