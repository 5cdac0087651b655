/**
 * The GPU buffer manager: texture and config buffers per block type, a memory budget and a
 * running usage figure. Buffer contents are byte sequences; the GPU itself is not modelled.
 *
 * Two versions of the manager are given. `AlkydBufferManagerAsWritten` keeps the single
 * per-block size table of the game, in which a config buffer's size overwrites the texture
 * buffer's size, so the usage figure can stay positive after every buffer is gone
 * (`DriftScenario`). `AlkydBufferManager` keeps one size table per kind of buffer, and its usage
 * figure is always exactly the bytes of the live buffers.
 */
module AlkydBuffers {
  import opened Common

  /** The `BufferUsages` flags the manager uses. */
  datatype UsageFlag = Storage | CopyDst | CopySrc | Uniform

  const TextureUsage: set<UsageFlag> := {Storage, CopyDst, CopySrc}
  const ConfigUsage: set<UsageFlag> := {Uniform, CopyDst}

  /** `GpuBufferData`: the bytes and the usage flags. */
  datatype GpuBuffer = GpuBuffer(data: seq<bv8>, usage: set<UsageFlag>)

  /** The sum of the values of a map. */
  ghost function Total<K(!new)>(m: map<K, nat>): nat
    decreases |m|
  {
    if |m| == 0 then 0
    else
      var k := Pick(m.Keys);
      m[k] + Total(m - {k})
  }

  ghost function Pick<K(!new)>(s: set<K>): (k: K)
    requires s != {}
    ensures k in s
  {
    var k :| k in s; k
  }

  /** Any single entry can be split off the sum, whichever entry `Total` itself picks first. */
  lemma {:induction false} TotalRemove<K(!new)>(m: map<K, nat>, k: K)
    requires k in m
    ensures Total(m) == m[k] + Total(m - {k})
    decreases |m|
  {
    var p := Pick(m.Keys);
    assert |m| > 0 by { assert k in m.Keys; }
    if p != k {
      assert (m - {p}).Keys == m.Keys - {p};
      TotalRemove(m - {p}, k);
      assert (m - {k}).Keys == m.Keys - {k};
      TotalRemove(m - {k}, p);
      assert m - {p} - {k} == m - {k} - {p};
    }
  }

  /** Setting one entry makes the sum the rest of the map plus the new value. */
  lemma TotalStore<K(!new)>(m: map<K, nat>, k: K, v: nat)
    ensures Total(m[k := v]) == Total(m - {k}) + v
  {
    TotalRemove(m[k := v], k);
    assert m[k := v] - {k} == m - {k};
  }

  /** The rest of the map plus the recorded value of an entry (0 when absent) is the whole sum. */
  lemma TotalGet<K(!new)>(m: map<K, nat>, k: K)
    ensures Total(m - {k}) + Get(m, k) == Total(m)
  {
    if k in m {
      TotalRemove(m, k);
    } else {
      assert m - {k} == m;
    }
  }

  /** Setting one entry changes the sum by the difference between the new and the old value. */
  lemma TotalUpdate<K(!new)>(m: map<K, nat>, k: K, v: nat)
    ensures Total(m[k := v]) == Total(m) - Get(m, k) + v
    ensures Get(m, k) <= Total(m)
  {
    TotalStore(m, k, v);
    TotalGet(m, k);
  }

  /** The empty map sums to zero, and only a map of zeros does. */
  lemma {:induction false} TotalZero<K(!new)>(m: map<K, nat>)
    ensures Total(m) == 0 <==> forall k :: k in m ==> m[k] == 0
    decreases |m|
  {
    if |m| > 0 {
      var p := Pick(m.Keys);
      assert (m - {p}).Keys == m.Keys - {p};
      TotalZero(m - {p});
      forall k | k in m && k != p
        ensures k in m - {p}
      {
      }
    }
  }

  /** The recorded size for a key, 0 when none is recorded (`get(..).copied().unwrap_or(0)`). */
  function Get<K>(m: map<K, nat>, k: K): nat {
    if k in m then m[k] else 0
  }

  /** `max_memory_mb * 1024 * 1024`. */
  function MiB(mb: nat): nat {
    mb * 1024 * 1024
  }

  /** `vec![0u8; n]`. */
  function Zeros(n: nat): (r: seq<bv8>)
    ensures |r| == n
  {
    seq(n, _ => 0)
  }

  /**
   * The shared table's invariant: a size is recorded exactly for the block types that have some
   * buffer, and usage is at least the recorded sizes.
   */
  ghost predicate SharedAccounts<K(!new)>(t: map<K, GpuBuffer>, c: map<K, GpuBuffer>, s: map<K, nat>, usage: nat) {
    s.Keys == t.Keys + c.Keys && usage >= Total(s)
  }

  lemma KeysStore<K(!new), V>(m: map<K, V>, k: K, v: V)
    ensures m[k := v].Keys == m.Keys + {k}
  {
  }

  lemma KeysDrop<K(!new), V>(m: map<K, V>, k: K)
    ensures (m - {k}).Keys == m.Keys - {k}
  {
  }

  /** Recording a size for a block that gets a buffer keeps the table's keys those of the buffers. */
  lemma SharedKeysStore<K(!new)>(t: map<K, GpuBuffer>, c: map<K, GpuBuffer>, s: map<K, nat>, k: K, b: GpuBuffer, n: nat)
    requires s.Keys == t.Keys + c.Keys
    ensures s[k := n].Keys == t[k := b].Keys + c.Keys
    ensures s[k := n].Keys == t.Keys + c[k := b].Keys
  {
    KeysStore(s, k, n);
    KeysStore(t, k, b);
    KeysStore(c, k, b);
  }

  /** Dropping a block from all three tables keeps the table's keys those of the buffers. */
  lemma SharedKeysDrop<K(!new)>(t: map<K, GpuBuffer>, c: map<K, GpuBuffer>, s: map<K, nat>, k: K)
    requires s.Keys == t.Keys + c.Keys
    ensures (s - {k}).Keys == (t - {k}).Keys + (c - {k}).Keys
  {
    KeysDrop(s, k);
    KeysDrop(t, k);
    KeysDrop(c, k);
  }

  /** A usage figure covering the table covers it after one entry is set, once moved by new minus old. */
  lemma CoveredAfterStore<K(!new)>(s: map<K, nat>, k: K, n: nat, usage: nat)
    requires usage >= Total(s)
    ensures Get(s, k) <= usage
    ensures Total(s[k := n]) <= usage + n
    ensures Total(s[k := n]) <= usage - Get(s, k) + n
  {
    TotalUpdate(s, k, n);
  }

  /** A usage figure covering the table covers it after one entry is removed, once lowered by that entry. */
  lemma CoveredAfterDrop<K(!new)>(s: map<K, nat>, k: K, usage: nat)
    requires usage >= Total(s) && k in s
    ensures s[k] <= usage && Total(s - {k}) <= usage - s[k]
  {
    TotalRemove(s, k);
  }

  /** Storing a texture buffer and recording its size in the shared table keeps the invariant. */
  lemma SharedCreateTexture<K(!new)>(t: map<K, GpuBuffer>, c: map<K, GpuBuffer>, s: map<K, nat>, usage: nat,
                                     k: K, b: GpuBuffer)
    requires SharedAccounts(t, c, s, usage)
    ensures SharedAccounts(t[k := b], c, s[k := |b.data|], usage + |b.data|)
  {
    SharedKeysStore(t, c, s, k, b, |b.data|);
    CoveredAfterStore(s, k, |b.data|, usage);
  }

  /** Storing a config buffer and recording its size in the same table keeps the invariant. */
  lemma SharedCreateConfig<K(!new)>(t: map<K, GpuBuffer>, c: map<K, GpuBuffer>, s: map<K, nat>, usage: nat,
                                    k: K, b: GpuBuffer)
    requires SharedAccounts(t, c, s, usage)
    ensures SharedAccounts(t, c[k := b], s[k := |b.data|], usage + |b.data|)
  {
    SharedKeysStore(t, c, s, k, b, |b.data|);
    CoveredAfterStore(s, k, |b.data|, usage);
  }

  /** Replacing a texture buffer moves usage by the new size minus the recorded one, without underflow. */
  lemma SharedUpdate<K(!new)>(t: map<K, GpuBuffer>, c: map<K, GpuBuffer>, s: map<K, nat>, usage: nat,
                              k: K, b: GpuBuffer)
    requires SharedAccounts(t, c, s, usage) && k in t
    ensures Get(s, k) <= usage
    ensures SharedAccounts(t[k := b], c, s[k := |b.data|], usage - Get(s, k) + |b.data|)
  {
    SharedKeysStore(t, c, s, k, b, |b.data|);
    CoveredAfterStore(s, k, |b.data|, usage);
  }

  /** Dropping a block's buffers and its recorded size subtracts that size without underflow. */
  lemma SharedCleanup<K(!new)>(t: map<K, GpuBuffer>, c: map<K, GpuBuffer>, s: map<K, nat>, usage: nat, k: K)
    requires SharedAccounts(t, c, s, usage) && k in s
    ensures s[k] <= usage
    ensures SharedAccounts(t - {k}, c - {k}, s - {k}, usage - s[k])
  {
    SharedKeysDrop(t, c, s, k);
    CoveredAfterDrop(s, k, usage);
  }

  /** The manager as the game writes it: one size entry per block type, shared by both kinds of buffer. */
  class AlkydBufferManagerAsWritten {
    var textureBuffers: map<string, GpuBuffer>
    var configBuffers: map<string, GpuBuffer>
    var bufferSizes: map<string, nat>
    var gpuMemoryUsage: nat
    const maxMemoryUsage: nat

    /**
     * A size is recorded exactly for the block types that have some buffer, and the usage figure
     * is at least the recorded sizes: every subtraction the manager makes is covered, so the
     * unsigned usage counter never underflows.
     */
    ghost predicate Valid()
      reads this
    {
      SharedAccounts(textureBuffers, configBuffers, bufferSizes, gpuMemoryUsage)
    }

    constructor(maxMemoryMb: nat)
      ensures Valid()
      ensures maxMemoryUsage == MiB(maxMemoryMb) && gpuMemoryUsage == 0
      ensures textureBuffers == map[] && configBuffers == map[] && bufferSizes == map[]
    {
      textureBuffers, configBuffers, bufferSizes := map[], map[], map[];
      gpuMemoryUsage := 0;
      maxMemoryUsage := MiB(maxMemoryMb);
    }

    /**
     * Refuses the buffer when it would take usage over the budget; otherwise stores it, records
     * its size for the block (replacing whatever size was recorded) and adds its size to usage.
     */
    method CreateTextureBuffer(blockType: string, data: seq<bv8>) returns (r: Option<GpuBuffer>)
      requires Valid()
      modifies this
      ensures Valid()
      ensures r.None? <==> old(gpuMemoryUsage) + |data| > maxMemoryUsage
      ensures r.None? ==> unchanged(this)
      ensures r.Some? ==> (r.value == GpuBuffer(data, TextureUsage)
        && textureBuffers == old(textureBuffers)[blockType := r.value] && configBuffers == old(configBuffers)
        && bufferSizes == old(bufferSizes)[blockType := |data|] && gpuMemoryUsage == old(gpuMemoryUsage) + |data|)
      ensures old(gpuMemoryUsage) <= maxMemoryUsage ==> gpuMemoryUsage <= maxMemoryUsage
    {
      var size := |data|;
      if gpuMemoryUsage + size > maxMemoryUsage {
        return None;
      }
      var buffer := GpuBuffer(data, TextureUsage);
      SharedCreateTexture(textureBuffers, configBuffers, bufferSizes, gpuMemoryUsage, blockType, buffer);
      textureBuffers := textureBuffers[blockType := buffer];
      bufferSizes := bufferSizes[blockType := size];
      gpuMemoryUsage := gpuMemoryUsage + size;
      r := Some(buffer);
    }

    /** As `CreateTextureBuffer`, for the config buffer; it records its size in the same table. */
    method CreateConfigBuffer(blockType: string, data: seq<bv8>) returns (r: Option<GpuBuffer>)
      requires Valid()
      modifies this
      ensures Valid()
      ensures r.None? <==> old(gpuMemoryUsage) + |data| > maxMemoryUsage
      ensures r.None? ==> unchanged(this)
      ensures r.Some? ==> (r.value == GpuBuffer(data, ConfigUsage)
        && configBuffers == old(configBuffers)[blockType := r.value] && textureBuffers == old(textureBuffers)
        && bufferSizes == old(bufferSizes)[blockType := |data|] && gpuMemoryUsage == old(gpuMemoryUsage) + |data|)
      ensures old(gpuMemoryUsage) <= maxMemoryUsage ==> gpuMemoryUsage <= maxMemoryUsage
    {
      var size := |data|;
      if gpuMemoryUsage + size > maxMemoryUsage {
        return None;
      }
      var buffer := GpuBuffer(data, ConfigUsage);
      SharedCreateConfig(textureBuffers, configBuffers, bufferSizes, gpuMemoryUsage, blockType, buffer);
      configBuffers := configBuffers[blockType := buffer];
      bufferSizes := bufferSizes[blockType := size];
      gpuMemoryUsage := gpuMemoryUsage + size;
      r := Some(buffer);
    }

    /**
     * Replaces an existing texture buffer's bytes (keeping its flags) without any budget check,
     * moving usage by the new size minus the recorded size. An absent block is refused.
     */
    method UpdateTextureBuffer(blockType: string, data: seq<bv8>) returns (updated: bool)
      requires Valid()
      modifies this
      ensures Valid()
      ensures updated <==> blockType in old(textureBuffers)
      ensures !updated ==> unchanged(this)
      ensures updated ==>
        textureBuffers == old(textureBuffers)[blockType := GpuBuffer(data, old(textureBuffers)[blockType].usage)]
        && configBuffers == old(configBuffers) && bufferSizes == old(bufferSizes)[blockType := |data|]
        && gpuMemoryUsage == old(gpuMemoryUsage) - Get(old(bufferSizes), blockType) + |data|
    {
      if blockType !in textureBuffers {
        return false;
      }
      var oldSize := Get(bufferSizes, blockType);
      var buffer := GpuBuffer(data, textureBuffers[blockType].usage);
      SharedUpdate(textureBuffers, configBuffers, bufferSizes, gpuMemoryUsage, blockType, buffer);
      textureBuffers := textureBuffers[blockType := buffer];
      bufferSizes := bufferSizes[blockType := |data|];
      gpuMemoryUsage := gpuMemoryUsage - oldSize + |data|;
      updated := true;
    }

    /** When a size is recorded for the block, removes both its buffers and subtracts that one size. */
    method CleanupBlockBuffers(blockType: string)
      requires Valid()
      modifies this
      ensures Valid()
      ensures blockType !in old(bufferSizes) ==> unchanged(this)
      ensures blockType in old(bufferSizes) ==>
        bufferSizes == old(bufferSizes) - {blockType}
        && textureBuffers == old(textureBuffers) - {blockType} && configBuffers == old(configBuffers) - {blockType}
        && gpuMemoryUsage == old(gpuMemoryUsage) - old(bufferSizes)[blockType]
    {
      if blockType in bufferSizes {
        var size := bufferSizes[blockType];
        SharedCleanup(textureBuffers, configBuffers, bufferSizes, gpuMemoryUsage, blockType);
        bufferSizes := bufferSizes - {blockType};
        textureBuffers := textureBuffers - {blockType};
        configBuffers := configBuffers - {blockType};
        gpuMemoryUsage := gpuMemoryUsage - size;
      }
    }

    /** Drops every buffer and size and zeroes usage. */
    method CleanupAllBuffers()
      requires Valid()
      modifies this
      ensures Valid()
      ensures textureBuffers == map[] && configBuffers == map[] && bufferSizes == map[] && gpuMemoryUsage == 0
    {
      textureBuffers, configBuffers, bufferSizes := map[], map[], map[];
      gpuMemoryUsage := 0;
    }
  }

  /**
   * A texture buffer of 65536 bytes and then a config buffer of 128 bytes for the same block,
   * then the block's cleanup: both buffers are gone, but usage still counts the texture's bytes,
   * because the config buffer's size replaced the texture buffer's in the shared table.
   */
  method DriftScenario() returns (usage: nat, textures: nat, configs: nat)
    ensures usage == 65536 && textures == 0 && configs == 0
  {
    var m := new AlkydBufferManagerAsWritten(256);
    var t := m.CreateTextureBuffer("Grass", Zeros(65536));
    var c := m.CreateConfigBuffer("Grass", Zeros(128));
    m.CleanupBlockBuffers("Grass");
    usage, textures, configs := m.gpuMemoryUsage, |m.textureBuffers|, |m.configBuffers|;
  }

  /** A size table records exactly the byte counts of its buffers. */
  ghost predicate SizesOf<K(!new)>(b: map<K, GpuBuffer>, s: map<K, nat>) {
    s.Keys == b.Keys && forall k :: k in s ==> s[k] == |b[k].data|
  }

  /** Storing a buffer and its size keeps the table exact and moves its sum by new size minus old. */
  lemma SizesStore<K(!new)>(b: map<K, GpuBuffer>, s: map<K, nat>, k: K, buf: GpuBuffer)
    requires SizesOf(b, s)
    ensures SizesOf(b[k := buf], s[k := |buf.data|])
    ensures Get(s, k) <= Total(s) && Total(s[k := |buf.data|]) == Total(s) - Get(s, k) + |buf.data|
  {
    TotalUpdate(s, k, |buf.data|);
    KeysStore(s, k, |buf.data|);
    KeysStore(b, k, buf);
  }

  /** Dropping a buffer and its size keeps the table exact and lowers its sum by the recorded size. */
  lemma SizesDrop<K(!new)>(b: map<K, GpuBuffer>, s: map<K, nat>, k: K)
    requires SizesOf(b, s)
    ensures SizesOf(b - {k}, s - {k})
    ensures Get(s, k) <= Total(s) && Total(s - {k}) == Total(s) - Get(s, k)
  {
    TotalGet(s, k);
    KeysDrop(s, k);
    KeysDrop(b, k);
  }

  /** The manager with one size table per kind of buffer, so usage always equals the live bytes. */
  class AlkydBufferManager {
    var textureBuffers: map<string, GpuBuffer>
    var configBuffers: map<string, GpuBuffer>
    var textureSizes: map<string, nat>
    var configSizes: map<string, nat>
    var gpuMemoryUsage: nat
    const maxMemoryUsage: nat

    /** Each table records exactly its own buffers' byte counts, and usage is the sum of both tables. */
    ghost predicate Valid()
      reads this
    {
      SizesOf(textureBuffers, textureSizes) && SizesOf(configBuffers, configSizes)
      && gpuMemoryUsage == Total(textureSizes) + Total(configSizes)
    }

    constructor(maxMemoryMb: nat)
      ensures Valid()
      ensures maxMemoryUsage == MiB(maxMemoryMb) && gpuMemoryUsage == 0
      ensures textureBuffers == map[] && configBuffers == map[]
    {
      textureBuffers, configBuffers := map[], map[];
      textureSizes, configSizes := map[], map[];
      gpuMemoryUsage := 0;
      maxMemoryUsage := MiB(maxMemoryMb);
    }

    /**
     * Refuses the buffer when usage plus its size would exceed the budget; otherwise stores it,
     * releasing the bytes of a texture buffer it replaces.
     */
    method CreateTextureBuffer(blockType: string, data: seq<bv8>) returns (r: Option<GpuBuffer>)
      requires Valid()
      modifies this
      ensures Valid()
      ensures r.None? <==> old(gpuMemoryUsage) + |data| > maxMemoryUsage
      ensures r.None? ==> unchanged(this)
      ensures r.Some? ==> (r.value == GpuBuffer(data, TextureUsage)
        && textureBuffers == old(textureBuffers)[blockType := r.value] && configBuffers == old(configBuffers)
        && gpuMemoryUsage == old(gpuMemoryUsage) - Get(old(textureSizes), blockType) + |data|)
      ensures old(gpuMemoryUsage) <= maxMemoryUsage ==> gpuMemoryUsage <= maxMemoryUsage
    {
      var size := |data|;
      if gpuMemoryUsage + size > maxMemoryUsage {
        return None;
      }
      var buffer := GpuBuffer(data, TextureUsage);
      SizesStore(textureBuffers, textureSizes, blockType, buffer);
      var oldSize := Get(textureSizes, blockType);
      textureBuffers := textureBuffers[blockType := buffer];
      textureSizes := textureSizes[blockType := size];
      gpuMemoryUsage := gpuMemoryUsage - oldSize + size;
      r := Some(buffer);
    }

    /** As `CreateTextureBuffer`, for the config buffer and its own size table. */
    method CreateConfigBuffer(blockType: string, data: seq<bv8>) returns (r: Option<GpuBuffer>)
      requires Valid()
      modifies this
      ensures Valid()
      ensures r.None? <==> old(gpuMemoryUsage) + |data| > maxMemoryUsage
      ensures r.None? ==> unchanged(this)
      ensures r.Some? ==> (r.value == GpuBuffer(data, ConfigUsage)
        && configBuffers == old(configBuffers)[blockType := r.value] && textureBuffers == old(textureBuffers)
        && gpuMemoryUsage == old(gpuMemoryUsage) - Get(old(configSizes), blockType) + |data|)
      ensures old(gpuMemoryUsage) <= maxMemoryUsage ==> gpuMemoryUsage <= maxMemoryUsage
    {
      var size := |data|;
      if gpuMemoryUsage + size > maxMemoryUsage {
        return None;
      }
      var buffer := GpuBuffer(data, ConfigUsage);
      SizesStore(configBuffers, configSizes, blockType, buffer);
      var oldSize := Get(configSizes, blockType);
      configBuffers := configBuffers[blockType := buffer];
      configSizes := configSizes[blockType := size];
      gpuMemoryUsage := gpuMemoryUsage - oldSize + size;
      r := Some(buffer);
    }

    /** Replaces an existing texture buffer's bytes, keeping its flags, without a budget check. */
    method UpdateTextureBuffer(blockType: string, data: seq<bv8>) returns (updated: bool)
      requires Valid()
      modifies this
      ensures Valid()
      ensures updated <==> blockType in old(textureBuffers)
      ensures !updated ==> unchanged(this)
      ensures updated ==>
        textureBuffers == old(textureBuffers)[blockType := GpuBuffer(data, old(textureBuffers)[blockType].usage)]
        && configBuffers == old(configBuffers)
        && gpuMemoryUsage == old(gpuMemoryUsage) - |old(textureBuffers)[blockType].data| + |data|
    {
      if blockType !in textureBuffers {
        return false;
      }
      var oldSize := textureSizes[blockType];
      var buffer := GpuBuffer(data, textureBuffers[blockType].usage);
      SizesStore(textureBuffers, textureSizes, blockType, buffer);
      textureBuffers := textureBuffers[blockType := buffer];
      textureSizes := textureSizes[blockType := |data|];
      gpuMemoryUsage := gpuMemoryUsage - oldSize + |data|;
      updated := true;
    }

    /** Removes both buffers of the block and releases the bytes of each one that existed. */
    method CleanupBlockBuffers(blockType: string)
      requires Valid()
      modifies this
      ensures Valid()
      ensures textureBuffers == old(textureBuffers) - {blockType} && configBuffers == old(configBuffers) - {blockType}
      ensures gpuMemoryUsage == old(gpuMemoryUsage) - Get(old(textureSizes), blockType) - Get(old(configSizes), blockType)
    {
      SizesDrop(textureBuffers, textureSizes, blockType);
      SizesDrop(configBuffers, configSizes, blockType);
      var freed := Get(textureSizes, blockType) + Get(configSizes, blockType);
      textureBuffers := textureBuffers - {blockType};
      configBuffers := configBuffers - {blockType};
      textureSizes := textureSizes - {blockType};
      configSizes := configSizes - {blockType};
      gpuMemoryUsage := gpuMemoryUsage - freed;
    }

    /** Drops every buffer and zeroes usage. */
    method CleanupAllBuffers()
      requires Valid()
      modifies this
      ensures Valid()
      ensures textureBuffers == map[] && configBuffers == map[] && gpuMemoryUsage == 0
    {
      textureBuffers, configBuffers := map[], map[];
      textureSizes, configSizes := map[], map[];
      gpuMemoryUsage := 0;
    }

    /** `get_memory_stats().buffer_count`: the number of texture buffers (config buffers are not counted). */
    function BufferCount(): (n: nat)
      reads this
      ensures n == 0 <==> textureBuffers == map[]
      ensures forall k :: k in textureBuffers ==> n > 0
    {
      |textureBuffers|
    }
  }

  /** With the per-kind tables, a manager holding no buffers uses no memory. */
  lemma NoBuffersNoUsage(m: AlkydBufferManager)
    requires m.Valid() && m.textureBuffers == map[] && m.configBuffers == map[]
    ensures m.gpuMemoryUsage == 0
  {
    TotalZero(m.textureSizes);
    TotalZero(m.configSizes);
  }

  /** Usage is zero exactly when every live buffer is empty. */
  lemma UsageZeroIffEmptyBuffers(m: AlkydBufferManager)
    requires m.Valid()
    ensures m.gpuMemoryUsage == 0 <==>
      (forall k :: k in m.textureBuffers ==> |m.textureBuffers[k].data| == 0) &&
      (forall k :: k in m.configBuffers ==> |m.configBuffers[k].data| == 0)
  {
    TotalZero(m.textureSizes);
    TotalZero(m.configSizes);
  }

  /** The scenario of `DriftScenario` on the corrected manager ends with no usage. */
  method CorrectedScenario() returns (usage: nat, textures: nat, configs: nat)
    ensures usage == 0 && textures == 0 && configs == 0
  {
    var m := new AlkydBufferManager(256);
    var t := m.CreateTextureBuffer("Grass", Zeros(65536));
    var c := m.CreateConfigBuffer("Grass", Zeros(128));
    m.CleanupBlockBuffers("Grass");
    NoBuffersNoUsage(m);
    usage, textures, configs := m.gpuMemoryUsage, |m.textureBuffers|, |m.configBuffers|;
  }
}
