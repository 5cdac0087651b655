/**
 * Biome materials: the per-block material properties with their biome overrides
 * and parameter-driven adjustments, and the LRU cache of generated materials.
 * Unlike the texture cache, every material is charged the same estimated size,
 * so the byte figure is always that size times the number of materials.
 */
module MaterialCache {
  import opened Common
  import opened Blocks
  import opened Lru
  import opened BiomeTextures

  /** Estimated bytes charged per cached material (one 128x128 RGBA texture). */
  const MATERIAL_BYTES: nat := 128 * 128 * 4

  datatype Vec4 = Vec4(x: real, y: real, z: real, w: real)

  /** `BiomeMaterialProperties`. */
  datatype MaterialProperties = MaterialProperties(
    baseRoughness: real,
    baseMetallic: real,
    baseReflectance: real,
    normalIntensity: real,
    ambientOcclusion: real,
    emissiveColor: Vec4,
    heightVariation: real)

  const DefaultProperties := MaterialProperties(0.8, 0.0, 0.5, 0.5, 0.5, Vec4(0.0, 0.0, 0.0, 1.0), 0.0)

  /** The base properties `BiomeMaterialConfig::new` picks for a block type; other blocks get the defaults. */
  function BaseProperties(b: BlockType): MaterialProperties {
    match b
    case Grass => MaterialProperties(0.7, 0.0, 0.3, 0.6, 0.4, Vec4(0.1, 0.2, 0.1, 0.0), 0.1)
    case Dirt => MaterialProperties(0.8, 0.0, 0.2, 0.4, 0.6, Vec4(0.0, 0.0, 0.0, 1.0), 0.05)
    case Stone => MaterialProperties(0.6, 0.1, 0.4, 0.7, 0.3, Vec4(0.0, 0.0, 0.0, 1.0), 0.0)
    case Sand => MaterialProperties(0.9, 0.0, 0.6, 0.3, 0.2, Vec4(0.3, 0.25, 0.2, 0.0), 0.0)
    case Wood => MaterialProperties(0.5, 0.0, 0.3, 0.8, 0.4, Vec4(0.0, 0.0, 0.0, 1.0), 0.0)
    case _ => DefaultProperties
  }

  /** Every base property set is a plausible PBR setting: all scalar factors lie in [0, 1]. */
  lemma BasePropertiesInUnitRange(b: BlockType)
    ensures var p := BaseProperties(b);
      0.0 <= p.baseRoughness <= 1.0 && 0.0 <= p.baseMetallic <= 1.0 && 0.0 <= p.baseReflectance <= 1.0 &&
      0.0 <= p.normalIntensity <= 1.0 && 0.0 <= p.ambientOcclusion <= 1.0
  {
  }

  /** `BiomeMaterialConfig`: a block's base properties and its per-biome overrides. */
  datatype MaterialConfig = MaterialConfig(blockType: BlockType, baseProperties: MaterialProperties,
                                           biomeEffects: map<string, MaterialProperties>)

  /** A fresh configuration: the block's base properties and no overrides. */
  function NewMaterialConfig(b: BlockType): (r: MaterialConfig)
    ensures r.blockType == b && r.biomeEffects == map[]
    ensures forall params :: PropertiesForBiome(r, params) == AdjustForBiome(BaseProperties(b), params)
  {
    MaterialConfig(b, BaseProperties(b), map[])
  }

  /** `add_biome_effect`: registers (or replaces) the override for one biome name. */
  function AddBiomeEffect(c: MaterialConfig, biomeType: string, p: MaterialProperties): (r: MaterialConfig)
    ensures r.blockType == c.blockType && r.baseProperties == c.baseProperties
    ensures r.biomeEffects.Keys == c.biomeEffects.Keys + {biomeType}
  {
    c.(biomeEffects := c.biomeEffects[biomeType := p])
  }

  /** `f32::clamp` for bounds in order (NaN is not modelled). */
  function Clamp(x: real, lo: real, hi: real): (r: real)
    requires lo <= hi
    ensures lo <= r <= hi
    ensures lo <= x <= hi ==> r == x
  {
    if x < lo then lo else if x > hi then hi else x
  }

  /**
   * The adjustment applied when a biome has no override: temperature scales roughness and
   * reflectance, moisture scales roughness again and ambient occlusion, relative height scales
   * the normal intensity; each result is clamped.
   */
  function AdjustForBiome(base: MaterialProperties, params: BiomeTextureParams): (r: MaterialProperties)
    ensures 0.1 <= r.baseRoughness <= 1.0 && 0.0 <= r.baseReflectance <= 1.0
    ensures 0.1 <= r.ambientOcclusion <= 1.0 && 0.1 <= r.normalIntensity <= 1.0
    ensures r.baseMetallic == base.baseMetallic && r.emissiveColor == base.emissiveColor
    ensures r.heightVariation == base.heightVariation
  {
    var roughness := Clamp(base.baseRoughness * (1.0 + params.temperature * 0.2 - 0.1), 0.1, 1.0);
    var reflectance := Clamp(base.baseReflectance * (1.0 + params.temperature * 0.3), 0.0, 1.0);
    var roughness' := Clamp(roughness * (1.0 - params.moisture * 0.3), 0.1, 1.0);
    var occlusion := Clamp(base.ambientOcclusion * (1.0 + params.moisture * 0.4), 0.1, 1.0);
    var normal := Clamp(base.normalIntensity * (1.0 + params.relativeHeight * 0.5), 0.1, 1.0);
    base.(baseRoughness := roughness', baseReflectance := reflectance, ambientOcclusion := occlusion,
          normalIntensity := normal)
  }

  /** `get_properties_for_biome`: the biome's override when there is one, otherwise the adjusted base. */
  function PropertiesForBiome(c: MaterialConfig, params: BiomeTextureParams): (r: MaterialProperties)
    ensures params.biomeType in c.biomeEffects ==> r == c.biomeEffects[params.biomeType]
    ensures params.biomeType !in c.biomeEffects ==> r == AdjustForBiome(c.baseProperties, params)
  {
    if params.biomeType in c.biomeEffects then c.biomeEffects[params.biomeType]
    else AdjustForBiome(c.baseProperties, params)
  }

  /** A registered override is returned unchanged for its biome, and other biomes are unaffected. */
  lemma AddedEffectOverrides(c: MaterialConfig, biomeType: string, p: MaterialProperties, params: BiomeTextureParams)
    ensures params.biomeType == biomeType ==> PropertiesForBiome(AddBiomeEffect(c, biomeType, p), params) == p
    ensures params.biomeType != biomeType ==>
      PropertiesForBiome(AddBiomeEffect(c, biomeType, p), params) == PropertiesForBiome(c, params)
  {
  }

  /** The material asset built on a miss from the generated texture and properties. */
  datatype BiomeMaterial = BiomeMaterial(
    baseColor: Vec4,
    baseColorTexture: Option<int>,
    roughness: real,
    metallic: real,
    reflectance: real,
    normalMapIntensity: real,
    ambientOcclusion: real,
    emissive: Vec4,
    heightVariation: real,
    moistureEffect: real,
    temperatureEffect: real)

  /** The material for a generated texture: white base colour, the properties' factors, the biome's climate. */
  function MakeMaterial(texture: int, p: MaterialProperties, params: BiomeTextureParams): (r: BiomeMaterial)
    ensures r.baseColor == Vec4(1.0, 1.0, 1.0, 1.0) && r.baseColorTexture == Some(texture)
    ensures r.roughness == p.baseRoughness && r.metallic == p.baseMetallic && r.reflectance == p.baseReflectance
    ensures r.normalMapIntensity == p.normalIntensity && r.ambientOcclusion == p.ambientOcclusion
    ensures r.emissive == p.emissiveColor && r.heightVariation == p.heightVariation
    ensures r.moistureEffect == params.moisture && r.temperatureEffect == params.temperature
  {
    BiomeMaterial(Vec4(1.0, 1.0, 1.0, 1.0), Some(texture), p.baseRoughness, p.baseMetallic, p.baseReflectance,
                  p.normalIntensity, p.ambientOcclusion, p.emissiveColor, p.heightVariation,
                  params.moisture, params.temperature)
  }

  /** A cached material: its handle, its texture's handle, the parameters it was made for, and uses. */
  datatype MaterialEntry = MaterialEntry(materialHandle: int, textureHandle: int, params: BiomeTextureParams, accessCount: nat)

  /** The entry after one more use. */
  function Touched(e: MaterialEntry): (r: MaterialEntry)
    ensures r.accessCount == e.accessCount + 1
    ensures r.materialHandle == e.materialHandle && r.textureHandle == e.textureHandle && r.params == e.params
  {
    e.(accessCount := e.accessCount + 1)
  }

  /** Queue and map agree, one material per queued key, each charged MATERIAL_BYTES. */
  ghost predicate Consistent<K(!new)>(q: seq<K>, m: map<K, MaterialEntry>, count: nat, bytes: nat) {
    Mirrors(q, m) && count == |q| && bytes == MATERIAL_BYTES * count
  }

  lemma ConsistentPopBack<K(!new)>(q: seq<K>, m: map<K, MaterialEntry>, count: nat, bytes: nat)
    requires Consistent(q, m, count, bytes) && |q| > 0
    ensures q[|q| - 1] in m && count >= 1 && bytes >= MATERIAL_BYTES
    ensures Consistent(PopBack(q), m - {q[|q| - 1]}, count - 1, bytes - MATERIAL_BYTES)
  {
    PopBackKeepsMirror(q, m);
  }

  lemma ConsistentPushFront<K(!new)>(q: seq<K>, m: map<K, MaterialEntry>, count: nat, bytes: nat, k: K, e: MaterialEntry)
    requires Consistent(q, m, count, bytes) && k !in m
    ensures Consistent([k] + q, m[k := e], count + 1, bytes + MATERIAL_BYTES)
  {
    PushFrontKeepsMirror(q, m, k, e);
  }

  lemma ConsistentTouch<K(!new)>(q: seq<K>, m: map<K, MaterialEntry>, count: nat, bytes: nat, k: K)
    requires Consistent(q, m, count, bytes) && k in m
    ensures Consistent(Touch(q, k), m[k := Touched(m[k])], count, bytes)
  {
    TouchKeepsMirror(q, m, k);
    assert m[k := Touched(m[k])].Keys == m.Keys;
  }

  /** `n` materials fit a byte budget exactly when `n` is at most the budget over MATERIAL_BYTES. */
  lemma FitsBudget(n: nat, budget: nat)
    ensures MATERIAL_BYTES * n <= budget <==> n <= budget / MATERIAL_BYTES
  {
    var k := budget / MATERIAL_BYTES;
    assert budget == MATERIAL_BYTES * k + budget % MATERIAL_BYTES;
    if n <= k {
      assert MATERIAL_BYTES * n <= MATERIAL_BYTES * k;
    } else {
      assert MATERIAL_BYTES * n >= MATERIAL_BYTES * (k + 1);
    }
  }

  class BiomeMaterialCache<K(==, !new)> {
    /** How a block type and its biome parameters become a cache key. */
    const keyOf: (BlockType, BiomeTextureParams) -> K

    var cache: map<K, MaterialEntry>
    var lruQueue: seq<K>

    // Configuration.
    const maxMaterials: nat
    const maxMemoryMb: nat
    const enableLruEviction: bool

    // Statistics.
    var totalRequests: nat
    var cacheHits: nat
    var cacheMisses: nat
    var materialsGenerated: nat
    var materialsEvicted: nat
    var memoryUsedBytes: nat
    var currentMaterials: nat

    /** The byte budget: `max_memory_mb` mebibytes. */
    function MaxMemoryBytes(): nat {
      maxMemoryMb * 1024 * 1024
    }

    /** Queue and map hold the same keys, each once; the counters describe the entries; every request is a hit or a miss. */
    ghost predicate Valid()
      reads this
    {
      Consistent(lruQueue, cache, currentMaterials, memoryUsedBytes) && cacheHits + cacheMisses == totalRequests
    }

    /**
     * How many of `n` queued materials eviction keeps: the longest prefix within both limits,
     * at most `max_materials` and at most as many as the byte budget pays for.
     */
    function KeptCount(n: nat): nat {
      var byBytes := MaxMemoryBytes() / MATERIAL_BYTES;
      var byCount := if n > maxMaterials then maxMaterials else n;
      if byCount > byBytes then byBytes else byCount
    }

    /**
     * KeptCount is the longest prefix within both limits: it fits them, and every longer prefix
     * of the `n` queued materials exceeds the count or the byte budget.
     */
    lemma KeptCountLongest(n: nat, l: nat)
      ensures KeptCount(n) <= n && KeptCount(n) <= maxMaterials
      ensures MATERIAL_BYTES * KeptCount(n) <= MaxMemoryBytes()
      ensures KeptCount(n) < l <= n ==> l > maxMaterials || MATERIAL_BYTES * l > MaxMemoryBytes()
    {
      FitsBudget(KeptCount(n), MaxMemoryBytes());
      FitsBudget(l, MaxMemoryBytes());
    }

    /** The statistics that eviction never touches. */
    ghost function Counters(): (nat, nat, nat, nat)
      reads this
    {
      (totalRequests, cacheHits, cacheMisses, materialsGenerated)
    }

    /** What is left after evicting from the back of `q0`: a prefix of it, with the matching entries, each eviction counted. */
    ghost predicate EvictedFromBack(q0: seq<K>, m0: map<K, MaterialEntry>, evicted0: nat)
      reads this
    {
      |lruQueue| <= |q0| && lruQueue == q0[..|lruQueue|]
      && cache == Restrict(m0, lruQueue)
      && materialsEvicted == evicted0 + (|q0| - |lruQueue|)
    }

    constructor(keyOf: (BlockType, BiomeTextureParams) -> K, maxMaterials: nat, maxMemoryMb: nat, enableLruEviction: bool)
      ensures Valid()
      ensures cache == map[] && lruQueue == [] && this.keyOf == keyOf
      ensures this.maxMaterials == maxMaterials && this.maxMemoryMb == maxMemoryMb
      ensures this.enableLruEviction == enableLruEviction
      ensures totalRequests == 0 && materialsGenerated == 0 && materialsEvicted == 0
      ensures memoryUsedBytes == 0 && currentMaterials == 0
    {
      this.keyOf := keyOf;
      this.maxMaterials := maxMaterials;
      this.maxMemoryMb := maxMemoryMb;
      this.enableLruEviction := enableLruEviction;
      cache := map[];
      lruQueue := [];
      totalRequests, cacheHits, cacheMisses := 0, 0, 0;
      materialsGenerated, materialsEvicted := 0, 0;
      memoryUsedBytes, currentMaterials := 0, 0;
    }

    /** Pops the back of the queue and drops its entry, releasing one material's bytes. */
    method EvictLruMaterial()
      requires Valid()
      modifies this
      ensures Valid()
      ensures Counters() == old(Counters())
      ensures old(lruQueue) == [] ==> lruQueue == [] && cache == old(cache) && materialsEvicted == old(materialsEvicted)
      ensures old(lruQueue) != [] ==>
        var victim := old(lruQueue)[|old(lruQueue)| - 1];
        lruQueue == PopBack(old(lruQueue)) && cache == old(cache) - {victim}
        && memoryUsedBytes == old(memoryUsedBytes) - MATERIAL_BYTES
        && materialsEvicted == old(materialsEvicted) + 1
    {
      if |lruQueue| > 0 {
        var key := lruQueue[|lruQueue| - 1];
        ConsistentPopBack(lruQueue, cache, currentMaterials, memoryUsedBytes);
        lruQueue := PopBack(lruQueue);
        if key in cache {
          cache := cache - {key};
          currentMaterials := currentMaterials - 1;
          materialsEvicted := materialsEvicted + 1;
          memoryUsedBytes := memoryUsedBytes - MATERIAL_BYTES;
        }
      }
    }

    /**
     * With eviction enabled, evicts from the back until the material count and then the byte
     * total are within budget. A single material survives when both limits allow one.
     */
    method CheckAndEvict()
      requires Valid()
      modifies this
      ensures Valid()
      ensures Counters() == old(Counters())
      ensures EvictedFromBack(old(lruQueue), old(cache), old(materialsEvicted))
      ensures !enableLruEviction ==> lruQueue == old(lruQueue)
      ensures enableLruEviction ==> currentMaterials <= maxMaterials && memoryUsedBytes <= MaxMemoryBytes()
      ensures (enableLruEviction && maxMaterials >= 1 && MATERIAL_BYTES <= MaxMemoryBytes() && |old(lruQueue)| > 0)
              ==> |lruQueue| > 0
      ensures enableLruEviction ==> |lruQueue| == KeptCount(|old(lruQueue)|)
    {
      ghost var q0, m0, ev0 := lruQueue, cache, materialsEvicted;
      assert lruQueue == q0[..|lruQueue|];
      if !enableLruEviction {
        return;
      }
      EvictToCount(q0, m0, ev0);
      EvictToMemory(q0, m0, ev0);
    }

    /** The first eviction loop: evicts from the back while there are more than `max_materials` materials. */
    method EvictToCount(ghost q0: seq<K>, ghost m0: map<K, MaterialEntry>, ghost ev0: nat)
      requires Valid() && NoDuplicates(q0) && EvictedFromBack(q0, m0, ev0)
      modifies this
      ensures Valid()
      ensures Counters() == old(Counters())
      ensures EvictedFromBack(q0, m0, ev0)
      ensures currentMaterials <= maxMaterials
      ensures maxMaterials >= 1 && |old(lruQueue)| > 0 ==> |lruQueue| > 0
      ensures currentMaterials == if old(currentMaterials) > maxMaterials then maxMaterials else old(currentMaterials)
    {
      while currentMaterials > maxMaterials && |lruQueue| > 0
        invariant Valid()
        invariant Counters() == old(Counters())
        invariant EvictedFromBack(q0, m0, ev0)
        invariant maxMaterials >= 1 && |old(lruQueue)| > 0 ==> |lruQueue| > 0
        invariant old(currentMaterials) > maxMaterials ==> currentMaterials >= maxMaterials
        invariant old(currentMaterials) <= maxMaterials ==> currentMaterials == old(currentMaterials)
        decreases |lruQueue|
      {
        RestrictPopBack(m0, q0, |lruQueue|);
        EvictLruMaterial();
      }
    }

    /** The second eviction loop: evicts from the back while the byte total exceeds the budget. */
    method EvictToMemory(ghost q0: seq<K>, ghost m0: map<K, MaterialEntry>, ghost ev0: nat)
      requires Valid() && NoDuplicates(q0) && EvictedFromBack(q0, m0, ev0)
      modifies this
      ensures Valid()
      ensures Counters() == old(Counters())
      ensures EvictedFromBack(q0, m0, ev0)
      ensures memoryUsedBytes <= MaxMemoryBytes() && currentMaterials <= old(currentMaterials)
      ensures MATERIAL_BYTES <= MaxMemoryBytes() && |old(lruQueue)| > 0 ==> |lruQueue| > 0
      ensures var byBytes := MaxMemoryBytes() / MATERIAL_BYTES;
        |lruQueue| == if |old(lruQueue)| > byBytes then byBytes else |old(lruQueue)|
    {
      while memoryUsedBytes > MaxMemoryBytes() && |lruQueue| > 0
        invariant Valid()
        invariant Counters() == old(Counters())
        invariant EvictedFromBack(q0, m0, ev0)
        invariant currentMaterials <= old(currentMaterials)
        invariant MATERIAL_BYTES <= MaxMemoryBytes() && |old(lruQueue)| > 0 ==> |lruQueue| > 0
        invariant |lruQueue| <= |old(lruQueue)|
        invariant |lruQueue| < |old(lruQueue)| ==> MATERIAL_BYTES * (|lruQueue| + 1) > MaxMemoryBytes()
        decreases |lruQueue|
      {
        RestrictPopBack(m0, q0, |lruQueue|);
        EvictLruMaterial();
      }
      FitsBudget(|lruQueue|, MaxMemoryBytes());
      FitsBudget(|lruQueue| + 1, MaxMemoryBytes());
    }

    /** Inserts a new entry (one access) at the front of the queue, charges its bytes, then evicts. */
    method AddToCache(key: K, materialHandle: int, textureHandle: int, params: BiomeTextureParams)
      requires Valid() && key !in cache
      modifies this
      ensures Valid()
      ensures Counters() == old(Counters())
      ensures EvictedFromBack([key] + old(lruQueue), old(cache)[key := MaterialEntry(materialHandle, textureHandle, params, 1)],
                              old(materialsEvicted))
      ensures !enableLruEviction ==> lruQueue == [key] + old(lruQueue)
      ensures enableLruEviction ==> currentMaterials <= maxMaterials && memoryUsedBytes <= MaxMemoryBytes()
      ensures enableLruEviction && maxMaterials >= 1 && MATERIAL_BYTES <= MaxMemoryBytes() ==> key in cache
      ensures enableLruEviction ==> |lruQueue| == KeptCount(|old(lruQueue)| + 1)
    {
      var entry := MaterialEntry(materialHandle, textureHandle, params, 1);
      ConsistentPushFront(lruQueue, cache, currentMaterials, memoryUsedBytes, key, entry);
      cache := cache[key := entry];
      lruQueue := [key] + lruQueue;
      currentMaterials := currentMaterials + 1;
      memoryUsedBytes := memoryUsedBytes + MATERIAL_BYTES;
      ghost var q := lruQueue;
      CheckAndEvict();
      if |lruQueue| > 0 {
        assert lruQueue[0] == q[0] == key;
      }
    }

    /** Moves a cached key to the front of the queue and counts one more access. */
    method UpdateLru(key: K)
      requires Valid() && key in cache
      modifies this
      ensures Valid()
      ensures Counters() == old(Counters())
      ensures lruQueue == Touch(old(lruQueue), key)
      ensures cache == old(cache)[key := Touched(old(cache)[key])]
      ensures memoryUsedBytes == old(memoryUsedBytes) && materialsEvicted == old(materialsEvicted)
    {
      ConsistentTouch(lruQueue, cache, currentMaterials, memoryUsedBytes, key);
      lruQueue := Touch(lruQueue, key);
      cache := cache[key := Touched(cache[key])];
    }

    /**
     * Looks the material up under its cache key. A hit touches it and returns its handle,
     * creating nothing. A miss calls `generate` once for the texture and properties, builds the
     * material (returned as `created`, the asset handed to the material store under `freshHandle`),
     * inserts it and counts the generation.
     */
    method GetOrGenerate(b: BlockType, params: BiomeTextureParams,
                         generate: BiomeTextureParams -> (int, MaterialProperties), freshHandle: int)
      returns (handle: int, created: Option<BiomeMaterial>)
      requires Valid()
      modifies this
      ensures Valid()
      ensures totalRequests == old(totalRequests) + 1
      ensures var key := keyOf(b, params);
        key in old(cache) ==>
          handle == old(cache)[key].materialHandle && created == None
          && cacheHits == old(cacheHits) + 1 && materialsGenerated == old(materialsGenerated)
          && lruQueue == Touch(old(lruQueue), key) && cache == old(cache)[key := Touched(old(cache)[key])]
      ensures var key := keyOf(b, params);
        var g := generate(params);
        key !in old(cache) ==>
          handle == freshHandle && created == Some(MakeMaterial(g.0, g.1, params))
          && cacheMisses == old(cacheMisses) + 1 && materialsGenerated == old(materialsGenerated) + 1
          && EvictedFromBack([key] + old(lruQueue), old(cache)[key := MaterialEntry(freshHandle, g.0, params, 1)],
                             old(materialsEvicted))
          && (enableLruEviction && maxMaterials >= 1 && MATERIAL_BYTES <= MaxMemoryBytes() ==> key in cache)
          && (enableLruEviction ==> |lruQueue| == KeptCount(|old(lruQueue)| + 1))
    {
      totalRequests := totalRequests + 1;
      var key := keyOf(b, params);
      if key in cache {
        cacheHits := cacheHits + 1;
        UpdateLru(key);
        return cache[key].materialHandle, None;
      }
      cacheMisses := cacheMisses + 1;
      var (texture, properties) := generate(params);
      created := Some(MakeMaterial(texture, properties, params));
      AddToCache(key, freshHandle, texture, params);
      materialsGenerated := materialsGenerated + 1;
      handle := freshHandle;
    }

    /** Empties map and queue and zeroes the current count and memory; the request statistics stay. */
    method Clear()
      requires Valid()
      modifies this
      ensures Valid()
      ensures cache == map[] && lruQueue == [] && memoryUsedBytes == 0 && currentMaterials == 0
      ensures Counters() == old(Counters()) && materialsEvicted == old(materialsEvicted)
    {
      cache := map[];
      lruQueue := [];
      currentMaterials := 0;
      memoryUsedBytes := 0;
    }
  }

  /** `current_materials` is the number of cached entries and the memory figure is MATERIAL_BYTES for each. */
  lemma MemoryPerMaterial<K(!new)>(c: BiomeMaterialCache<K>)
    requires c.Valid()
    ensures c.currentMaterials == |c.cache|
    ensures c.memoryUsedBytes == MATERIAL_BYTES * |c.cache|
  {
    MirrorCount(c.lruQueue, c.cache);
  }

  /**
   * Eviction counts exactly what it removed: after evicting from the back of a duplicate-free
   * queue mirrored by `m0`, the number of entries that disappeared equals the increase in the
   * eviction counter.
   */
  lemma {:induction false} EvictionCountsRemovals<K(!new)>(q0: seq<K>, m0: map<K, MaterialEntry>, q: seq<K>, m: map<K, MaterialEntry>,
                                                  ev0: nat, ev: nat)
    requires Mirrors(q0, m0)
    requires |q| <= |q0| && q == q0[..|q|] && m == Restrict(m0, q) && ev == ev0 + (|q0| - |q|)
    ensures |m0| - |m| == ev - ev0
  {
    MirrorCount(q0, m0);
    assert NoDuplicates(q);
    forall k
      ensures k in m <==> k in q
    {
      if k in q {
        var j :| 0 <= j < |q| && q[j] == k;
        assert q0[j] == k;
      }
    }
    DistinctCount(q, m.Keys);
  }

  /**
   * The cache as the game creates it: the key "<block>-<biome>-<t>-<m>-<h>", which has the same
   * layout as the texture key, and the default configuration of 512 materials, 512 MiB, eviction on.
   */
  method NewDefaultCache() returns (c: BiomeMaterialCache<string>)
    ensures fresh(c) && c.Valid()
    ensures c.keyOf == TextureCacheKey
    ensures c.cache == map[] && c.lruQueue == []
    ensures c.maxMaterials == 512 && c.maxMemoryMb == 512 && c.enableLruEviction
  {
    c := new BiomeMaterialCache(TextureCacheKey, 512, 512, true);
  }
}
