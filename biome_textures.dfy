/**
 * Biome-driven texture parameters: the biome decision tree, the per-block
 * noise table, the clamped parameter adjustment and the texture cache key.
 * All f32 quantities are modelled as exact reals.
 */
module BiomeTextures {
  import opened Blocks

  /** The ten biome names `determine_biome_type` can produce. */
  const BiomeNames: seq<string> :=
    ["snowy_mountain", "rocky_mountain", "desert", "savanna", "jungle",
     "forest", "grassland", "swamp", "plains", "tundra"]

  /** The biome decision tree over temperature, moisture and block height. */
  function DetermineBiomeType(temperature: real, moisture: real, height: int): (r: string)
    ensures r in BiomeNames
    ensures (r == "snowy_mountain" || r == "rocky_mountain") <==> height > 60
    ensures r == "snowy_mountain" <==> height > 60 && temperature < 0.3
    ensures r == "desert" <==> height <= 60 && temperature > 0.7 && moisture < 0.4
  {
    if height > 60 then
      if temperature < 0.3 then "snowy_mountain" else "rocky_mountain"
    else if temperature > 0.7 then
      if moisture < 0.4 then "desert" else "savanna"
    else if temperature > 0.5 then
      if moisture > 0.7 then "jungle"
      else if moisture > 0.4 then "forest"
      else "grassland"
    else
      if moisture > 0.6 then "swamp"
      else if moisture > 0.3 then "plains"
      else "tundra"
  }

  /** No biome name contains the '-' that separates the fields of a cache key. */
  lemma BiomeNamesHaveNoDash(name: string)
    requires name in BiomeNames
    ensures |name| > 0 && '-' !in name
  {
  }

  datatype BiomeTextureParams = BiomeTextureParams(
    biomeType: string,
    temperature: real,
    moisture: real,
    height: real,
    relativeHeight: real)

  /** The texture parameters for a column; `relativeHeight` is height over the maximum height. */
  function GetBiomeTextureParams(temperature: real, moisture: real, height: int, maxHeight: int): (r: BiomeTextureParams)
    ensures r.biomeType == DetermineBiomeType(temperature, moisture, height)
    ensures r.temperature == temperature && r.moisture == moisture && r.height == height as real
    ensures maxHeight != 0 ==> r.relativeHeight * maxHeight as real == height as real
  {
    var relative := if maxHeight == 0 then 0.0 else height as real / maxHeight as real;
    BiomeTextureParams(DetermineBiomeType(temperature, moisture, height), temperature, moisture, height as real, relative)
  }

  /** The noise generator's settings record. */
  datatype NoiseSettings = NoiseSettings(
    baseHeight: real,
    heightScale: real,
    scale: real,
    octaves: nat,
    persistence: real,
    lacunarity: real,
    biomeScale: real)

  /** `NoiseSettings::default()`. */
  const DefaultNoiseSettings := NoiseSettings(10.0, 35.0, 0.008, 5, 0.7, 1.6, 0.005)

  datatype BiomeTextureConfig = BiomeTextureConfig(
    baseConfig: NoiseSettings,
    temperatureEffect: real,
    moistureEffect: real,
    heightEffect: real)

  /** Terrain settings shared by the five textured blocks, differing only in scale and octaves. */
  function TerrainNoise(scale: real, octaves: nat): NoiseSettings {
    NoiseSettings(0.0, 1.0, scale, octaves, 0.5, 2.0, 0.005)
  }

  /** The per-block texture configuration table. */
  function ForBlockType(b: BlockType): (r: BiomeTextureConfig)
    ensures 0.0 < r.temperatureEffect < 1.0 && 0.0 < r.moistureEffect < 1.0 && 0.0 < r.heightEffect < 1.0
    ensures r.baseConfig.scale > 0.0 && r.baseConfig.persistence > 0.0 && r.baseConfig.octaves > 0
    ensures b !in {Grass, Dirt, Stone, Sand, Wood} ==> r == BiomeTextureConfig(DefaultNoiseSettings, 0.5, 0.5, 0.5)
  {
    var base := match b
      case Grass => TerrainNoise(0.07, 4)
      case Dirt => TerrainNoise(0.08, 5)
      case Stone => TerrainNoise(0.1, 6)
      case Sand => TerrainNoise(0.09, 3)
      case Wood => TerrainNoise(0.06, 4)
      case _ => DefaultNoiseSettings;
    match b
    case Grass => BiomeTextureConfig(base, 0.8, 0.6, 0.4)
    case Dirt => BiomeTextureConfig(base, 0.6, 0.5, 0.3)
    case Stone => BiomeTextureConfig(base, 0.4, 0.3, 0.5)
    case Sand => BiomeTextureConfig(base, 0.9, 0.2, 0.1)
    case Wood => BiomeTextureConfig(base, 0.5, 0.4, 0.2)
    case _ => BiomeTextureConfig(base, 0.5, 0.5, 0.5)
  }

  function MaxReal(a: real, b: real): real {
    if a >= b then a else b
  }

  /** Rust's saturating `f32 as usize` cast for finite values: truncation toward zero, negatives to 0. */
  function TruncateToNat(x: real): (r: nat)
    ensures x <= 0.0 ==> r == 0
    ensures x >= 0.0 ==> r as real <= x < r as real + 1.0
  {
    if x <= 0.0 then 0 else x.Floor
  }

  /** The clamped biome adjustment of scale, octaves and persistence. */
  function ApplyBiomeParameters(config: NoiseSettings, params: BiomeTextureParams, biome: BiomeTextureConfig): (r: NoiseSettings)
    ensures r.baseHeight == config.baseHeight && r.heightScale == config.heightScale
    ensures r.lacunarity == config.lacunarity && r.biomeScale == config.biomeScale
    ensures biome.temperatureEffect > 0.0 ==> r.scale >= 0.01
    ensures biome.temperatureEffect <= 0.0 ==> r.scale == config.scale
    ensures biome.heightEffect > 0.0 ==> r.persistence >= 0.1
    ensures biome.heightEffect <= 0.0 ==> r.persistence == config.persistence
    ensures biome.moistureEffect <= 0.0 ==> r.octaves == config.octaves
    ensures biome.moistureEffect > 0.0 ==>
      var scaled := config.octaves as real * (0.8 + params.moisture * biome.moistureEffect * 0.4);
      (scaled <= 0.0 ==> r.octaves == 0) && (scaled >= 0.0 ==> r.octaves as real <= scaled < r.octaves as real + 1.0)
  {
    var scale :=
      if biome.temperatureEffect > 0.0
      then MaxReal(config.scale * (0.8 + params.temperature * biome.temperatureEffect * 0.4), 0.01)
      else config.scale;
    var octaves :=
      if biome.moistureEffect > 0.0
      then TruncateToNat(config.octaves as real * (0.8 + params.moisture * biome.moistureEffect * 0.4))
      else config.octaves;
    var persistence :=
      if biome.heightEffect > 0.0
      then MaxReal(config.persistence * (0.8 + params.height * biome.heightEffect * 0.4), 0.1)
      else config.persistence;
    config.(scale := scale, octaves := octaves, persistence := persistence)
  }

  /** With the table's (always positive) effects, both clamps are always applied. */
  lemma ApplyForBlockTypeClamps(b: BlockType, config: NoiseSettings, params: BiomeTextureParams)
    ensures ApplyBiomeParameters(config, params, ForBlockType(b)).scale >= 0.01
    ensures ApplyBiomeParameters(config, params, ForBlockType(b)).persistence >= 0.1
  {
  }

  /** Rust's `f32::round`: to the nearest integer, halves away from zero. */
  function Round(x: real): (r: int)
    ensures x - 0.5 <= r as real <= x + 0.5
    ensures x >= 0.0 ==> r >= 0
  {
    if x >= 0.0 then (x + 0.5).Floor else -((-x + 0.5).Floor)
  }

  function DigitChar(d: nat): (c: char)
    requires d < 10
    ensures '0' <= c <= '9'
  {
    "0123456789"[d]
  }

  /** Decimal rendering of a natural number. */
  function NatToString(n: nat): (s: string)
    ensures |s| > 0 && forall i :: 0 <= i < |s| ==> '0' <= s[i] <= '9'
  {
    if n < 10 then [DigitChar(n)] else NatToString(n / 10) + [DigitChar(n % 10)]
  }

  /** Decimal rendering of an integer, with a leading '-' when negative. */
  function IntToString(n: int): (s: string)
    ensures |s| > 0
    ensures n >= 0 <==> s[0] != '-'
  {
    if n >= 0 then NatToString(n) else "-" + NatToString(-n)
  }

  /** The three rounded numeric fields of a cache key, joined by '-'. */
  function KeyFields(params: BiomeTextureParams): string {
    IntToString(Round(params.temperature * 10.0)) + "-" +
    IntToString(Round(params.moisture * 10.0)) + "-" +
    IntToString(Round(params.height * 10.0))
  }

  /**
   * The cache key "<Debug name>-<biome>-<round(10 t)>-<round(10 m)>-<round(10 h)>".
   * The `as i32` saturation of the rounded values is not modelled.
   */
  function TextureCacheKey(b: BlockType, params: BiomeTextureParams): (r: string)
    ensures |Name(b)| + 1 + |params.biomeType| + 1 <= |r|
    ensures r[..|Name(b)| + 1] == Name(b) + "-"
    ensures r[|Name(b)| + 1..|Name(b)| + 1 + |params.biomeType| + 1] == params.biomeType + "-"
  {
    var r := Name(b) + "-" + (params.biomeType + "-" + KeyFields(params));
    assert r == (Name(b) + "-") + (params.biomeType + "-") + KeyFields(params);
    r
  }

  /** A dash-free prefix followed by '-' is no longer than another such prefix of the same string. */
  lemma {:induction false} DashPrefixNotLonger(a: string, x: string, c: string, y: string)
    requires '-' !in a && '-' !in c
    requires a + "-" + x == c + "-" + y
    ensures |a| <= |c|
  {
    var l := a + "-" + x;
    var k := c + "-" + y;
    var m := if |a| <= |c| then |a| else |c|;
    assert l[m] == k[m];
  }

  /** Two strings split at their first '-' agree on both halves when they are equal. */
  lemma {:induction false} SplitAtFirstDash(a: string, x: string, c: string, y: string)
    requires '-' !in a && '-' !in c
    requires a + "-" + x == c + "-" + y
    ensures a == c && x == y
  {
    DashPrefixNotLonger(a, x, c, y);
    DashPrefixNotLonger(c, y, a, x);
    var l := a + "-" + x;
    assert a == l[..|a|] == c;
    assert x == l[|a| + 1..] == y;
  }

  /**
   * A cache key determines its block type and, for dash-free biome names such as
   * the ten the decision tree produces, its biome type.
   */
  lemma {:induction false} CacheKeyDeterminesBlockAndBiome(b1: BlockType, p1: BiomeTextureParams, b2: BlockType, p2: BiomeTextureParams)
    requires '-' !in p1.biomeType && '-' !in p2.biomeType
    requires TextureCacheKey(b1, p1) == TextureCacheKey(b2, p2)
    ensures b1 == b2 && p1.biomeType == p2.biomeType
  {
    var f1 := KeyFields(p1);
    var f2 := KeyFields(p2);
    NameShape(b1);
    NameShape(b2);
    SplitAtFirstDash(Name(b1), p1.biomeType + "-" + f1, Name(b2), p2.biomeType + "-" + f2);
    NameInjective(b1, b2);
    SplitAtFirstDash(p1.biomeType, f1, p2.biomeType, f2);
  }

  /** Keys built from `GetBiomeTextureParams` identify the block type and the biome. */
  lemma ParamsKeyDeterminesBlockAndBiome(b1: BlockType, t1: real, m1: real, h1: int, max1: int,
                                         b2: BlockType, t2: real, m2: real, h2: int, max2: int)
    requires TextureCacheKey(b1, GetBiomeTextureParams(t1, m1, h1, max1)) == TextureCacheKey(b2, GetBiomeTextureParams(t2, m2, h2, max2))
    ensures b1 == b2 && DetermineBiomeType(t1, m1, h1) == DetermineBiomeType(t2, m2, h2)
  {
    var p1 := GetBiomeTextureParams(t1, m1, h1, max1);
    var p2 := GetBiomeTextureParams(t2, m2, h2, max2);
    BiomeNamesHaveNoDash(p1.biomeType);
    BiomeNamesHaveNoDash(p2.biomeType);
    CacheKeyDeterminesBlockAndBiome(b1, p1, b2, p2);
  }
}
