/** The block kinds of the voxel world and the predicates that drive culling and collision. */
module Blocks {

  datatype BlockType = Air | Dirt | Stone | Grass | Wood | Leaves | Sand | Water | Bedrock

  /** All nine block types, in declaration order. */
  const AllBlockTypes: seq<BlockType> := [Air, Dirt, Stone, Grass, Wood, Leaves, Sand, Water, Bedrock]

  /** The display name; it coincides with the variant's Debug rendering. */
  function Name(b: BlockType): string {
    match b
    case Air => "Air"
    case Dirt => "Dirt"
    case Stone => "Stone"
    case Grass => "Grass"
    case Wood => "Wood"
    case Leaves => "Leaves"
    case Sand => "Sand"
    case Water => "Water"
    case Bedrock => "Bedrock"
  }

  /** A block is solid unless it is Air or Water. */
  predicate IsSolid(b: BlockType) {
    match b
    case Air | Water => false
    case _ => true
  }

  /** Air, Water and Leaves let light (and face culling) through. */
  predicate IsTransparent(b: BlockType) {
    match b
    case Air | Water | Leaves => true
    case _ => false
  }

  lemma SolidExactly(b: BlockType)
    ensures !IsSolid(b) <==> b in {Air, Water}
  {
  }

  lemma TransparentExactly(b: BlockType)
    ensures IsTransparent(b) <==> b in {Air, Water, Leaves}
  {
  }

  /** Every non-solid block is transparent; Leaves is the only solid transparent block. */
  lemma SolidTransparentRelation(b: BlockType)
    ensures !IsSolid(b) ==> IsTransparent(b)
    ensures IsSolid(b) && IsTransparent(b) <==> b == Leaves
  {
  }

  /** Names never contain '-' and are non-empty. */
  lemma NameShape(b: BlockType)
    ensures |Name(b)| > 0 && '-' !in Name(b)
  {
  }

  /** Distinct block types have distinct names. */
  lemma NameInjective(a: BlockType, b: BlockType)
    ensures Name(a) == Name(b) <==> a == b
  {
  }

  lemma AllBlockTypesComplete(b: BlockType)
    ensures b in AllBlockTypes
  {
  }
}
